/** How the host accounts for one protocol message: the spool of records and
    logs, its caps, and what each plugin message does to it. */
module Spool {
  import opened Wrappers
  import opened Json
  import opened Domain
  import Text
  import Utf8
  import Framing

  const HOST_MAX_RECORDS: nat := 10_000
  const HOST_MAX_RECORD_BYTES: nat := 32 * 1024 * 1024
  const HOST_MAX_LOG_BYTES: nat := 1024 * 1024
  const MAX_RECORD_BATCH: nat := 100
  const WORD_MAX: nat := 0xFFFF_FFFF_FFFF_FFFF

  datatype Manifest = Manifest(sourceName: string, allowedDomains: seq<string>)

  datatype Log = Log(level: string, message: string)

  /** Ways a plugin can break the protocol. */
  datatype Violation =
    | NoJsonrpc | NoMethodOrId | UnexpectedId | NoResult
    | UnknownMethod | HostMethod | NotNotification | OnlyDuringDiscover | BadRequestId
    | RecordBeforeDiscover | NoParams | BadParams | NoRequestId | WrongRequestId
    | RecordAndRecords | NoRecords | BatchTooLarge
    | TooManyRecords | TooManyRecordBytes | TooManyLogBytes
    | BadProtocolVersion | BadSchemaVersion | EmptySourceName
    | FrameAfterResponse | CountMismatch

  datatype HostError =
    | FrameFailure(frame: Framing.FrameError)
    | MalformedJson
    | PluginFailure
    | PluginDidNotExit
    | PluginExitStatus(code: int)
    | PluginExited
    | FrameQueueFull
    | Protocol(why: Violation)
    | Service
    | Cancelled
    | Timeout
    | InvalidRecord

  datatype InitResult = InitResult(protocolVersion: int, recordSchemaVersion: int, manifest: Manifest)

  /** The typed decoders the host applies to JSON, and the record validator. */
  datatype Serde = Serde(
    parse: string -> Option<Value>,
    asInit: Value -> Option<InitResult>,
    asCount: Value -> Option<nat>,
    asRecord: Value -> Option<SourceRecord>,
    asFetch: Value -> bool,
    valid: SourceRecord -> bool)

  datatype RunState = RunState(
    records: seq<SourceRecord>,
    logs: seq<Log>,
    maxRecords: Option<nat>,
    recordBytes: nat,
    logBytes: nat)

  /** `with_host_caps`. */
  function EffectiveMax(limit: Option<nat>): (r: nat)
    ensures r <= HOST_MAX_RECORDS && (limit.Some? ==> r <= limit.value)
  {
    if limit.Some? && limit.value < HOST_MAX_RECORDS then limit.value else HOST_MAX_RECORDS
  }

  function NewRunState(max: Option<nat>): RunState {
    RunState([], [], max, 0, 0)
  }

  /** Serialised size of a JSON value in bytes. */
  function JsonSize(v: Value): nat {
    |Utf8.Encode(Print(v))|
  }

  function TotalSize(values: seq<Value>): nat {
    if values == [] then 0 else TotalSize(values[..|values| - 1]) + JsonSize(values[|values| - 1])
  }

  function LogSize(log: Log): nat {
    |Utf8.Encode(log.level)| + |Utf8.Encode(log.message)|
  }

  function TotalLogSize(logs: seq<Log>): nat {
    if logs == [] then 0 else TotalLogSize(logs[..|logs| - 1]) + LogSize(logs[|logs| - 1])
  }

  lemma {:induction false} TotalSizeAppend(a: seq<Value>, b: seq<Value>)
    ensures TotalSize(a + b) == TotalSize(a) + TotalSize(b)
  {
    if b == [] {
      assert a + b == a;
    } else {
      assert (a + b)[..|a + b| - 1] == a + b[..|b| - 1];
      TotalSizeAppend(a, b[..|b| - 1]);
    }
  }

  // ---------------------------------------------------------------------
  // Reservations and logs
  // ---------------------------------------------------------------------

  /** Room for `values`, computed in unbounded arithmetic. */
  function Reserve(st: RunState, values: seq<Value>): Result<RunState, Violation> {
    if st.maxRecords.Some? && |st.records| + |values| > st.maxRecords.value then Err(TooManyRecords)
    else if st.recordBytes + TotalSize(values) > HOST_MAX_RECORD_BYTES then Err(TooManyRecordBytes)
    else Ok(st.(recordBytes := st.recordBytes + TotalSize(values)))
  }

  function PushLog(st: RunState, log: Log): Result<RunState, Violation> {
    if st.logBytes + LogSize(log) > HOST_MAX_LOG_BYTES then Err(TooManyLogBytes)
    else Ok(st.(logs := st.logs + [log], logBytes := st.logBytes + LogSize(log)))
  }

  datatype Handled = Kept(state: RunState) | Rejected(state: RunState, error: HostError)

  predicate Acceptable(serde: Serde, source: string, r: SourceRecord) {
    serde.valid(r) && r.sourceName == source
  }

  /** Deserialise, validate and spool values one by one, stopping at the first
      that fails. */
  function PushAll(serde: Serde, source: string, values: seq<Value>, st: RunState): Handled
    decreases |values|
  {
    if values == [] then Kept(st)
    else
      match serde.asRecord(values[0])
      case None => Rejected(st, MalformedJson)
      case Some(r) =>
        if !Acceptable(serde, source, r) then Rejected(st, InvalidRecord)
        else PushAll(serde, source, values[1..], st.(records := st.records + [r]))
  }

  function SpoolValues(serde: Serde, source: string, values: seq<Value>, st: RunState): Handled {
    match Reserve(st, values)
    case Err(why) => Rejected(st, Protocol(why))
    case Ok(reserved) => PushAll(serde, source, values, reserved)
  }

  /** The record values a `record` notification carries, or why it is refused. */
  function RecordValues(params: Value): Result<seq<Value>, Violation> {
    if Get(params, "record").Some? && Get(params, "records").Some? then Err(RecordAndRecords)
    else if Get(params, "record").Some? then Ok([Get(params, "record").value])
    else
      match Get(params, "records")
      case Some(Arr(items)) => if |items| > MAX_RECORD_BATCH then Err(BatchTooLarge) else Ok(items)
      case _ => Err(NoRecords)
  }

  /** `spool_records`. */
  function SpoolRecords(serde: Serde, source: string, params: Value, st: RunState): Handled {
    match RecordValues(params)
    case Err(why) => Rejected(st, Protocol(why))
    case Ok(values) => SpoolValues(serde, source, values, st)
  }

  // ---------------------------------------------------------------------
  // Plugin messages
  // ---------------------------------------------------------------------

  datatype Phase = Initializing | Discovering(manifest: Manifest)

  predicate PluginRequestId(id: Option<Value>) {
    id.Some? && id.value.Str? && "p-" <= id.value.text
  }

  function LogOf(params: Value): Log {
    var level := AsStr(Get(params, "level"));
    var message := AsStr(Get(params, "message"));
    Log(if level.Some? then level.value else "info", if message.Some? then message.value else "")
  }

  function HandleRecord(serde: Serde, requestId: string, phase: Phase, value: Value, st: RunState): Handled {
    var params := Get(value, "params");
    if Get(value, "id").Some? then Rejected(st, Protocol(NotNotification))
    else if phase.Initializing? then Rejected(st, Protocol(RecordBeforeDiscover))
    else if params.None? then Rejected(st, Protocol(NoParams))
    else
      var actual := AsStr(Get(params.value, "request_id"));
      if actual.None? then Rejected(st, Protocol(NoRequestId))
      else if actual.value != requestId then Rejected(st, Protocol(WrongRequestId))
      else SpoolRecords(serde, phase.manifest.sourceName, params.value, st)
  }

  function HandleLog(value: Value, st: RunState): Handled {
    var params := Get(value, "params");
    if Get(value, "id").Some? then Rejected(st, Protocol(NotNotification))
    else if params.None? then Rejected(st, Protocol(NoParams))
    else
      match PushLog(st, LogOf(params.value))
      case Err(why) => Rejected(st, Protocol(why))
      case Ok(next) => Kept(next)
  }

  /** `required_state_arg`. */
  predicate Argument(args: Value, name: string) {
    AsStr(Get(args, name)).Some? && !Text.IsBlank(AsStr(Get(args, name)).value)
  }

  /** `parse_state_query` accepts. */
  predicate QueryAccepted(params: Value) {
    var op := AsStr(Get(params, "op"));
    var args := if Get(params, "args").Some? then Get(params, "args").value else Null;
    && AsStr(Get(params, "id")).Some? && op.Some?
    && (op.value in {"known_source_urls", "last_seen_at", "source_post_summary", "content_fingerprint"})
    && Argument(args, "source_name")
    && (op.value in {"source_post_summary", "content_fingerprint"} ==> Argument(args, "source_url"))
  }

  /** `parse_fetch_request` accepts. */
  predicate FetchAccepted(serde: Serde, params: Value) {
    && Argument(params, "id") && Get(params, "request").Some? && serde.asFetch(Get(params, "request").value)
  }

  predicate ParamsAccepted(serde: Serde, name: string, params: Value) {
    if name == "state_query" then QueryAccepted(params) else FetchAccepted(serde, params)
  }

  /** What serving a request can end in besides an answer: the provider fails,
      the deadline has passed, or a frame cannot be written to the plugin. */
  predicate ServiceError(e: HostError) {
    e == Service || e == Timeout || e == FrameFailure(Framing.Io) || (e.FrameFailure? && e.frame.TooLarge?)
  }

  /** The error to report once a reply has been written, or could not be. */
  function AfterReply(service: Option<HostError>, e: HostError): HostError {
    if service.Some? && service.value.FrameFailure? then service.value else e
  }

  /** Serving a state query or a fetch sends a response and touches nothing
      else; `service` is the error that serving it ended in, if any. */
  function HandleRequest(
    serde: Serde, phase: Phase, name: string, value: Value, st: RunState, service: Option<HostError>): Handled
  {
    if phase.Initializing? then Rejected(st, Protocol(OnlyDuringDiscover))
    else if !PluginRequestId(Get(value, "id")) then Rejected(st, Protocol(BadRequestId))
    else if Get(value, "params").None? then Rejected(st, Protocol(NoParams))
    else if !ParamsAccepted(serde, name, Get(value, "params").value) then
      Rejected(st, AfterReply(service, Protocol(BadParams)))
    else if service.Some? then Rejected(st, service.value)
    else Kept(st)
  }

  /** A request with an unknown method is answered before the run ends. */
  function HandleUnknown(value: Value, st: RunState, service: Option<HostError>): Handled {
    if Get(value, "id").Some? then Rejected(st, AfterReply(service, Protocol(UnknownMethod)))
    else Rejected(st, Protocol(UnknownMethod))
  }

  /** `handle_plugin_message`. */
  function HandleMessage(
    serde: Serde, requestId: string, phase: Phase, name: string, value: Value, st: RunState,
    service: Option<HostError>): Handled
  {
    if name == "record" then HandleRecord(serde, requestId, phase, value, st)
    else if name == "log" then HandleLog(value, st)
    else if name == "state_query" || name == "fetch_request" then HandleRequest(serde, phase, name, value, st, service)
    else if name == "initialize" || name == "discover" || name == "cancel" then Rejected(st, Protocol(HostMethod))
    else HandleUnknown(value, st, service)
  }

  datatype Digested =
    | Continue(state: RunState)
    | Reply(state: RunState, result: Value)
    | Fail(state: RunState, error: HostError)

  /** What `read_until_response` does with one frame. */
  function Digest(
    serde: Serde, requestId: string, phase: Phase, expectedId: string, text: string, st: RunState,
    service: Option<HostError>): Digested
  {
    match serde.parse(text)
    case None => Fail(st, MalformedJson)
    case Some(value) => DigestValue(serde, requestId, phase, expectedId, value, st, service)
  }

  function DigestValue(
    serde: Serde, requestId: string, phase: Phase, expectedId: string, value: Value, st: RunState,
    service: Option<HostError>): Digested
  {
    if AsStr(Get(value, "jsonrpc")) != Some("2.0") then Fail(st, Protocol(NoJsonrpc))
    else
      match AsStr(Get(value, "method"))
      case Some(name) =>
        (match HandleMessage(serde, requestId, phase, name, value, st, service)
         case Kept(next) => Continue(next)
         case Rejected(next, error) => Fail(next, error))
      case None =>
        match AsStr(Get(value, "id"))
        case None => Fail(st, Protocol(NoMethodOrId))
        case Some(id) =>
          if id != expectedId then Fail(st, Protocol(UnexpectedId))
          else if Get(value, "error").Some? then Fail(st, PluginFailure)
          else if Get(value, "result").None? then Fail(st, Protocol(NoResult))
          else Reply(st, Get(value, "result").value)
  }

  // ---------------------------------------------------------------------
  // What a history of frames amounts to
  // ---------------------------------------------------------------------

  /** The record values and the log a frame carries, whatever its phase. */
  function FrameValues(serde: Serde, text: string): seq<Value> {
    match serde.parse(text)
    case None => []
    case Some(value) => MessageValues(value)
  }

  function MessageValues(value: Value): seq<Value> {
    if AsStr(Get(value, "method")) == Some("record") && Get(value, "params").Some?
       && RecordValues(Get(value, "params").value).Ok?
    then RecordValues(Get(value, "params").value).value
    else []
  }

  function FrameLogs(serde: Serde, text: string): seq<Log> {
    match serde.parse(text)
    case None => []
    case Some(value) =>
      if AsStr(Get(value, "method")) == Some("log") && Get(value, "params").Some?
      then [LogOf(Get(value, "params").value)]
      else []
  }

  /** In-order concatenation over a list of frames. */
  function ValuesIn(serde: Serde, frames: seq<string>): seq<Value> {
    if frames == [] then []
    else ValuesIn(serde, frames[..|frames| - 1]) + FrameValues(serde, frames[|frames| - 1])
  }

  function LogsIn(serde: Serde, frames: seq<string>): seq<Log> {
    if frames == [] then []
    else LogsIn(serde, frames[..|frames| - 1]) + FrameLogs(serde, frames[|frames| - 1])
  }

  /** `records` are the deserialised `values`, one for one and in order, each
      valid for `source`. */
  predicate Decodes(serde: Serde, source: string, values: seq<Value>, records: seq<SourceRecord>) {
    && |records| == |values|
    && forall i :: 0 <= i < |values| ==>
         serde.asRecord(values[i]) == Some(records[i]) && Acceptable(serde, source, records[i])
  }

  /** The spool holds exactly what `frames` carried. */
  predicate Accounts(serde: Serde, source: string, frames: seq<string>, st: RunState) {
    && Decodes(serde, source, ValuesIn(serde, frames), st.records)
    && st.recordBytes == TotalSize(ValuesIn(serde, frames))
    && st.logs == LogsIn(serde, frames)
    && st.logBytes == TotalLogSize(st.logs)
  }

  /** The caps, which hold even after a message has been rejected half-way. */
  predicate WithinCaps(st: RunState) {
    && (st.maxRecords.Some? ==> |st.records| <= st.maxRecords.value)
    && st.recordBytes <= HOST_MAX_RECORD_BYTES
    && st.logBytes <= HOST_MAX_LOG_BYTES
  }

  lemma {:induction false} PushAllDecodes(serde: Serde, source: string, values: seq<Value>, st: RunState)
    returns (added: seq<SourceRecord>)
    ensures var h := PushAll(serde, source, values, st);
            && h.state == st.(records := st.records + added)
            && |added| <= |values|
            && (h.Kept? ==> Decodes(serde, source, values, added))
    decreases |values|
  {
    added := [];
    assert st.records + added == st.records;
    if values != [] && serde.asRecord(values[0]).Some? && Acceptable(serde, source, serde.asRecord(values[0]).value) {
      var r := serde.asRecord(values[0]).value;
      var tail := PushAllDecodes(serde, source, values[1..], st.(records := st.records + [r]));
      added := [r] + tail;
      assert (st.records + [r]) + tail == st.records + added;
    }
  }

  /** Handling a message never breaks a cap. */
  lemma HandlingKeepsCaps(
    serde: Serde, requestId: string, phase: Phase, name: string, value: Value, st: RunState,
    service: Option<HostError>)
    requires WithinCaps(st)
    ensures var next := HandleMessage(serde, requestId, phase, name, value, st, service).state;
            WithinCaps(next) && next.maxRecords == st.maxRecords
  {
    var params := Get(value, "params");
    if name == "record" && phase.Discovering? && params.Some? && RecordValues(params.value).Ok? {
      var values := RecordValues(params.value).value;
      var reserved := Reserve(st, values);
      if reserved.Ok? {
        var added := PushAllDecodes(serde, phase.manifest.sourceName, values, reserved.value);
      }
    }
  }

  lemma DigestKeepsCaps(
    serde: Serde, requestId: string, phase: Phase, expectedId: string, text: string, st: RunState,
    service: Option<HostError>)
    requires WithinCaps(st)
    ensures var next := Digest(serde, requestId, phase, expectedId, text, st, service).state;
            WithinCaps(next) && next.maxRecords == st.maxRecords
  {
    if serde.parse(text).Some? {
      var value := serde.parse(text).value;
      if AsStr(Get(value, "method")).Some? {
        HandlingKeepsCaps(serde, requestId, phase, AsStr(Get(value, "method")).value, value, st, service);
      }
    }
  }

  /** A frame that is a plugin message the host serves. */
  predicate Notice(serde: Serde, text: string) {
    && serde.parse(text).Some?
    && AsStr(Get(serde.parse(text).value, "method")).Some?
    && AsStr(Get(serde.parse(text).value, "method")).value in {"record", "log", "state_query", "fetch_request"}
  }

  predicate LogNotice(serde: Serde, text: string) {
    && serde.parse(text).Some?
    && AsStr(Get(serde.parse(text).value, "method")) == Some("log")
  }

  /** A frame that answers the request `id` with `result`. */
  predicate Answers(serde: Serde, text: string, id: string, result: Value) {
    && serde.parse(text).Some?
    && AsStr(Get(serde.parse(text).value, "method")).None?
    && AsStr(Get(serde.parse(text).value, "id")) == Some(id)
    && Get(serde.parse(text).value, "result") == Some(result)
  }

  lemma DecodesAppend(
    serde: Serde, source: string, values: seq<Value>, records: seq<SourceRecord>, more: seq<Value>,
    added: seq<SourceRecord>)
    requires Decodes(serde, source, values, records) && Decodes(serde, source, more, added)
    ensures Decodes(serde, source, values + more, records + added)
  {
  }

  lemma HistoryStep(serde: Serde, frames: seq<string>, text: string)
    ensures ValuesIn(serde, frames + [text]) == ValuesIn(serde, frames) + FrameValues(serde, text)
    ensures LogsIn(serde, frames + [text]) == LogsIn(serde, frames) + FrameLogs(serde, text)
  {
    assert (frames + [text])[..|frames|] == frames;
  }

  lemma LogSizeStep(logs: seq<Log>, more: seq<Log>)
    requires |more| <= 1
    ensures TotalLogSize(logs + more) == TotalLogSize(logs) + TotalLogSize(more)
  {
    if more == [] {
      assert logs + more == logs;
    } else {
      assert (logs + more)[..|logs|] == logs && more[..0] == [];
    }
  }

  /** One more accounted frame. */
  lemma AccountsStep(
    serde: Serde, source: string, frames: seq<string>, text: string, st: RunState,
    values: seq<Value>, added: seq<SourceRecord>, logs: seq<Log>, next: RunState)
    requires Accounts(serde, source, frames, st)
    requires values == FrameValues(serde, text) && Decodes(serde, source, values, added)
    requires logs == FrameLogs(serde, text) && |logs| <= 1
    requires next.records == st.records + added && next.logs == st.logs + logs
    requires next.recordBytes == st.recordBytes + TotalSize(values)
    requires next.logBytes == st.logBytes + TotalLogSize(logs)
    ensures Accounts(serde, source, frames + [text], next)
  {
    HistoryStep(serde, frames, text);
    var before := ValuesIn(serde, frames);
    DecodesAppend(serde, source, before, st.records, values, added);
    TotalSizeAppend(before, values);
    LogSizeStep(st.logs, logs);
  }

  lemma NothingAdded(serde: Serde, source: string, frames: seq<string>, text: string, st: RunState)
    requires Accounts(serde, source, frames, st)
    requires FrameValues(serde, text) == [] && FrameLogs(serde, text) == []
    ensures Accounts(serde, source, frames + [text], st)
  {
    assert st.records + [] == st.records && st.logs + [] == st.logs;
    AccountsStep(serde, source, frames, text, st, [], [], [], st);
  }

  /** `text` carries `value`, a plugin message named `name`. */
  predicate Carries(serde: Serde, text: string, name: string, value: Value) {
    serde.parse(text) == Some(value) && AsStr(Get(value, "method")) == Some(name)
  }

  lemma SpoolingAccounts(serde: Serde, source: string, frames: seq<string>, text: string, st: RunState, params: Value)
    requires Accounts(serde, source, frames, st)
    requires RecordValues(params).Ok? && FrameValues(serde, text) == RecordValues(params).value
    requires FrameLogs(serde, text) == []
    requires SpoolRecords(serde, source, params, st).Kept?
    ensures Accounts(serde, source, frames + [text], SpoolRecords(serde, source, params, st).state)
  {
    var values := RecordValues(params).value;
    var added := PushAllDecodes(serde, source, values, Reserve(st, values).value);
    assert st.logs + [] == st.logs;
    AccountsStep(serde, source, frames, text, st, values, added, [], SpoolRecords(serde, source, params, st).state);
  }

  lemma RecordAccounts(
    serde: Serde, requestId: string, phase: Phase, value: Value, frames: seq<string>, text: string, st: RunState,
    source: string)
    requires Carries(serde, text, "record", value) && Accounts(serde, source, frames, st)
    requires phase.Discovering? ==> source == phase.manifest.sourceName
    requires HandleRecord(serde, requestId, phase, value, st).Kept?
    ensures Accounts(serde, source, frames + [text], HandleRecord(serde, requestId, phase, value, st).state)
  {
    SpoolingAccounts(serde, source, frames, text, st, Get(value, "params").value);
  }

  lemma LogAccounts(serde: Serde, source: string, value: Value, frames: seq<string>, text: string, st: RunState)
    requires Carries(serde, text, "log", value) && Accounts(serde, source, frames, st)
    requires HandleLog(value, st).Kept?
    ensures Accounts(serde, source, frames + [text], HandleLog(value, st).state)
  {
    var log := LogOf(Get(value, "params").value);
    assert FrameLogs(serde, text) == [log];
    assert FrameValues(serde, text) == [];
    assert st.records + [] == st.records;
    assert [log][..0] == [];
    AccountsStep(serde, source, frames, text, st, [], [], [log], PushLog(st, log).value);
  }

  /** A plugin message that is kept extends the accounted history by itself. */
  lemma RequestAccounts(
    serde: Serde, phase: Phase, name: string, value: Value, frames: seq<string>, text: string, st: RunState,
    service: Option<HostError>, source: string)
    requires Carries(serde, text, name, value) && name != "record" && name != "log"
    requires Accounts(serde, source, frames, st)
    requires HandleRequest(serde, phase, name, value, st, service).Kept?
    ensures Accounts(serde, source, frames + [text], HandleRequest(serde, phase, name, value, st, service).state)
    ensures phase.Discovering?
  {
    NothingAdded(serde, source, frames, text, st);
  }

  lemma HandlingAccounts(
    serde: Serde, requestId: string, phase: Phase, name: string, value: Value, frames: seq<string>, text: string,
    st: RunState, service: Option<HostError>, source: string)
    requires Carries(serde, text, name, value) && Accounts(serde, source, frames, st)
    requires phase.Discovering? ==> source == phase.manifest.sourceName
    requires HandleMessage(serde, requestId, phase, name, value, st, service).Kept?
    ensures Accounts(serde, source, frames + [text],
                     HandleMessage(serde, requestId, phase, name, value, st, service).state)
    ensures name in {"record", "log", "state_query", "fetch_request"} && (phase.Initializing? ==> name == "log")
  {
    if name == "record" {
      RecordAccounts(serde, requestId, phase, value, frames, text, st, source);
    } else if name == "log" {
      LogAccounts(serde, source, value, frames, text, st);
    } else {
      RequestAccounts(serde, phase, name, value, frames, text, st, service, source);
    }
  }

  lemma DigestShape(
    serde: Serde, requestId: string, phase: Phase, expectedId: string, text: string, st: RunState,
    service: Option<HostError>)
    ensures var d := Digest(serde, requestId, phase, expectedId, text, st, service);
            && (d.Continue? ==>
                  && serde.parse(text).Some? && AsStr(Get(serde.parse(text).value, "method")).Some?
                  && HandleMessage(serde, requestId, phase, AsStr(Get(serde.parse(text).value, "method")).value,
                                   serde.parse(text).value, st, service) == Kept(d.state))
            && (d.Reply? ==> d.state == st && Answers(serde, text, expectedId, d.result))
  {
  }

  lemma AnswersCarryNothing(serde: Serde, text: string, id: string, result: Value)
    requires Answers(serde, text, id, result)
    ensures FrameValues(serde, text) == [] && FrameLogs(serde, text) == []
  {
  }

  /** So does every frame that does not end the run. */
  lemma DigestAccounts(
    serde: Serde, requestId: string, phase: Phase, expectedId: string, frames: seq<string>, text: string,
    st: RunState, service: Option<HostError>, source: string)
    requires phase.Discovering? ==> source == phase.manifest.sourceName
    requires Accounts(serde, source, frames, st)
    ensures var d := Digest(serde, requestId, phase, expectedId, text, st, service);
            && (d.Continue? ==> Accounts(serde, source, frames + [text], d.state) && Notice(serde, text)
                                && (phase.Initializing? ==> LogNotice(serde, text)))
            && (d.Reply? ==> Accounts(serde, source, frames + [text], d.state) && d.state == st
                             && Answers(serde, text, expectedId, d.result))
  {
    var d := Digest(serde, requestId, phase, expectedId, text, st, service);
    DigestShape(serde, requestId, phase, expectedId, text, st, service);
    if d.Continue? {
      var value := serde.parse(text).value;
      var name := AsStr(Get(value, "method")).value;
      HandlingAccounts(serde, requestId, phase, name, value, frames, text, st, service, source);
    } else if d.Reply? {
      AnswersCarryNothing(serde, text, expectedId, d.result);
      NothingAdded(serde, source, frames, text, st);
    }
  }

  // ---------------------------------------------------------------------
  // Exactly which frames are kept
  // ---------------------------------------------------------------------

  predicate AllAcceptable(serde: Serde, source: string, values: seq<Value>) {
    forall i :: 0 <= i < |values| ==>
      serde.asRecord(values[i]).Some? && Acceptable(serde, source, serde.asRecord(values[i]).value)
  }

  lemma {:induction false} PushAllExactly(serde: Serde, source: string, values: seq<Value>, st: RunState)
    ensures PushAll(serde, source, values, st).Kept? <==> AllAcceptable(serde, source, values)
    decreases |values|
  {
    if values != [] && serde.asRecord(values[0]).Some? {
      var tail := values[1..];
      PushAllExactly(serde, source, tail, st.(records := st.records + [serde.asRecord(values[0]).value]));
      assert AllAcceptable(serde, source, values) <==>
             AllAcceptable(serde, source, [values[0]]) && AllAcceptable(serde, source, tail) by {
        assert values == [values[0]] + tail;
      }
    }
  }

  predicate Is(value: Value, name: string) {
    AsStr(Get(value, "method")) == Some(name)
  }

  /** A notification with parameters. */
  predicate Notifies(value: Value) {
    Get(value, "id").None? && Get(value, "params").Some?
  }

  /** One record, or a list within the batch limit, but not both. */
  predicate CarriesRecords(params: Value, values: seq<Value>) {
    if Get(params, "record").Some? then Get(params, "records").None? && values == [Get(params, "record").value]
    else Get(params, "records") == Some(Arr(values)) && |values| <= MAX_RECORD_BATCH
  }

  ghost predicate RecordFrame(serde: Serde, requestId: string, phase: Phase, value: Value, st: RunState) {
    && Is(value, "record") && Notifies(value) && phase.Discovering?
    && AsStr(Get(Get(value, "params").value, "request_id")) == Some(requestId)
    && exists values ::
         && CarriesRecords(Get(value, "params").value, values)
         && AllAcceptable(serde, phase.manifest.sourceName, values)
         && (st.maxRecords.Some? ==> |st.records| + |values| <= st.maxRecords.value)
         && st.recordBytes + TotalSize(values) <= HOST_MAX_RECORD_BYTES
  }

  predicate LogFrame(value: Value, st: RunState) {
    && Is(value, "log") && Notifies(value)
    && st.logBytes + LogSize(LogOf(Get(value, "params").value)) <= HOST_MAX_LOG_BYTES
  }

  /** A request of the plugin's own namespace, served without an error. */
  predicate ServedFrame(serde: Serde, phase: Phase, value: Value, service: Option<HostError>) {
    && phase.Discovering? && PluginRequestId(Get(value, "id")) && Get(value, "params").Some?
    && ((Is(value, "state_query") && QueryAccepted(Get(value, "params").value))
        || (Is(value, "fetch_request") && FetchAccepted(serde, Get(value, "params").value)))
    && service.None?
  }

  lemma RecordKeptExactly(serde: Serde, requestId: string, phase: Phase, value: Value, st: RunState)
    requires Is(value, "record")
    ensures HandleRecord(serde, requestId, phase, value, st).Kept? <==> RecordFrame(serde, requestId, phase, value, st)
  {
    var params := Get(value, "params");
    if params.Some? && phase.Discovering? {
      var carried := RecordValues(params.value);
      forall values
        ensures CarriesRecords(params.value, values) <==> carried == Ok(values)
      {
      }
      if carried.Ok? {
        var reserved := Reserve(st, carried.value);
        if reserved.Ok? {
          PushAllExactly(serde, phase.manifest.sourceName, carried.value, reserved.value);
        }
      }
    }
  }

  ghost predicate KeptFrame(
    serde: Serde, requestId: string, phase: Phase, value: Value, st: RunState, service: Option<HostError>)
  {
    RecordFrame(serde, requestId, phase, value, st) || LogFrame(value, st) || ServedFrame(serde, phase, value, service)
  }

  lemma RequestKeptExactly(
    serde: Serde, phase: Phase, name: string, value: Value, st: RunState, service: Option<HostError>)
    requires Is(value, name) && (name == "state_query" || name == "fetch_request")
    ensures HandleRequest(serde, phase, name, value, st, service).Kept? <==> ServedFrame(serde, phase, value, service)
  {
  }

  lemma MessageKeptExactly(
    serde: Serde, requestId: string, phase: Phase, name: string, value: Value, st: RunState,
    service: Option<HostError>)
    requires Is(value, name)
    ensures HandleMessage(serde, requestId, phase, name, value, st, service).Kept?
        <==> KeptFrame(serde, requestId, phase, value, st, service)
  {
    if name == "record" {
      RecordKeptExactly(serde, requestId, phase, value, st);
    } else if name == "state_query" || name == "fetch_request" {
      RequestKeptExactly(serde, phase, name, value, st, service);
    }
  }

  /** The host keeps a frame and reads on exactly when it is one of the three
      kinds. */
  lemma KeptExactly(
    serde: Serde, requestId: string, phase: Phase, expectedId: string, text: string, st: RunState,
    service: Option<HostError>)
    ensures Digest(serde, requestId, phase, expectedId, text, st, service).Continue? <==>
              && serde.parse(text).Some?
              && AsStr(Get(serde.parse(text).value, "jsonrpc")) == Some("2.0")
              && KeptFrame(serde, requestId, phase, serde.parse(text).value, st, service)
  {
    if serde.parse(text).Some? {
      var value := serde.parse(text).value;
      var name := AsStr(Get(value, "method"));
      if name.Some? {
        MessageKeptExactly(serde, requestId, phase, name.value, value, st, service);
      }
    }
  }

  /** And it takes a frame for the awaited answer exactly when it is one, and no
      error. */
  lemma AnsweredExactly(
    serde: Serde, requestId: string, phase: Phase, expectedId: string, text: string, st: RunState,
    service: Option<HostError>, result: Value)
    ensures Digest(serde, requestId, phase, expectedId, text, st, service) == Reply(st, result) <==>
              && Answers(serde, text, expectedId, result)
              && AsStr(Get(serde.parse(text).value, "jsonrpc")) == Some("2.0")
              && Get(serde.parse(text).value, "error").None?
  {
  }
}
