/** The Python SDK's side of a discover run: what a callback that uses the SDK
    writes, and how it counts the records it sent. */
module Sdk {
  import opened Wrappers
  import opened Json
  import opened Canonical
  import opened Spool
  import Framing
  import Text

  // ---------------------------------------------------------------------
  // Messages
  // ---------------------------------------------------------------------

  type JsonValue = v: Value | WellFormed(v) witness Null

  function Object2(a: string, v: Value, b: string, w: Value): Value {
    Obj([Member(a, v), Member(b, w)])
  }

  function Notification(name: string, params: Value): Value {
    Obj([Member("jsonrpc", Str("2.0")), Member("method", Str(name)), Member("params", params)])
  }

  function Request(id: string, name: string, params: Value): Value {
    Obj([Member("jsonrpc", Str("2.0")), Member("id", Str(id)), Member("method", Str(name)), Member("params", params)])
  }

  function Response(id: string, result: Value): Value {
    Obj([Member("jsonrpc", Str("2.0")), Member("id", Str(id)), Member("result", result)])
  }

  function ErrorResponse(id: string, error: Value): Value {
    Obj([Member("jsonrpc", Str("2.0")), Member("id", Str(id)), Member("error", error)])
  }

  function RecordMessage(requestId: string, record: JsonValue): Value {
    Notification("record", Object2("request_id", Str(requestId), "record", record))
  }

  function BatchMessage(requestId: string, batch: seq<JsonValue>): Value {
    Notification("record", Object2("request_id", Str(requestId), "records", Arr(batch)))
  }

  function LogMessage(level: string, message: string): Value {
    Notification("log", Object2("level", Str(level), "message", Str(message)))
  }

  type Headers = ms: JsonMap | forall i :: 0 <= i < |ms| ==> ms[i].value.Str? witness []

  /** What a callback may ask the host. */
  datatype Ask =
    | KnownSourceUrls(sourceName: string)
    | SourcePostSummary(sourceName: string, sourceUrl: string)
    | LastSeenAt(sourceName: string)
    | ContentFingerprint(sourceName: string, sourceUrl: string)
    | HostFetch(url: string, verb: string, headers: Headers)

  predicate AboutOnePost(ask: Ask) {
    ask.SourcePostSummary? || ask.ContentFingerprint?
  }

  /** A state query with a missing argument: the host refuses it. */
  predicate Blank(ask: Ask) {
    !ask.HostFetch? && (Text.IsBlank(ask.sourceName) || (AboutOnePost(ask) && Text.IsBlank(ask.sourceUrl)))
  }

  function AskName(ask: Ask): string {
    if ask.HostFetch? then "fetch_request" else "state_query"
  }

  function Op(ask: Ask): string
    requires !ask.HostFetch?
  {
    match ask
    case KnownSourceUrls(_) => "known_source_urls"
    case SourcePostSummary(_, _) => "source_post_summary"
    case LastSeenAt(_) => "last_seen_at"
    case ContentFingerprint(_, _) => "content_fingerprint"
  }

  function QueryArgs(ask: Ask): Value
    requires !ask.HostFetch?
  {
    if AboutOnePost(ask) then Object2("source_name", Str(ask.sourceName), "source_url", Str(ask.sourceUrl))
    else Obj([Member("source_name", Str(ask.sourceName))])
  }

  function FetchValue(url: string, verb: string, headers: Headers): Value {
    Obj([Member("url", Str(url)), Member("method", Str(verb)), Member("headers", Obj(headers))])
  }

  function AskParams(number: nat, ask: Ask): Value {
    if ask.HostFetch? then
      Object2("id", Str("fetch-" + Decimal(number)), "request", FetchValue(ask.url, ask.verb, ask.headers))
    else
      Obj([Member("id", Str("state-" + Decimal(number))), Member("op", Str(Op(ask))), Member("args", QueryArgs(ask))])
  }

  function AskMessage(id: nat, number: nat, ask: Ask): Value {
    Request("p-" + Decimal(id), AskName(ask), AskParams(number, ask))
  }

  /** A decimal literal, as both languages print an integer. */
  function Decimal(n: nat): (s: string)
    ensures s != ""
  {
    if n < 10 then ['0' + n as char] else Decimal(n / 10) + ['0' + (n % 10) as char]
  }

  lemma {:induction false} DigitAppended(s: string, c: char)
    requires DigitRun(s) == |s| && '0' <= c <= '9'
    ensures DigitRun(s + [c]) == |s| + 1
  {
    if s == "" {
      assert s + [c] == [c];
    } else {
      assert (s + [c])[1..] == s[1..] + [c];
      DigitAppended(s[1..], c);
    }
  }

  lemma {:induction false} DecimalDigits(n: nat)
    ensures AllDigits(Decimal(n)) && (n > 0 ==> Decimal(n)[0] != '0') && (n == 0 ==> Decimal(n) == "0")
  {
    if n >= 10 {
      DecimalDigits(n / 10);
      DigitAppended(Decimal(n / 10), '0' + (n % 10) as char);
    }
  }

  lemma DecimalIsLexeme(n: nat)
    ensures IsLexeme(Decimal(n)) && WellFormed(CountResult(n))
  {
    DecimalDigits(n);
    var s := Decimal(n);
    assert s[|s|..] == "";
  }

  function CountResult(n: nat): Value {
    Obj([Member("records", Number(Decimal(n)))])
  }

  // ---------------------------------------------------------------------
  // Looking into a message that has been canonicalised and parsed
  // ---------------------------------------------------------------------

  lemma {:induction false} LookupFinds(ms: seq<Member>, m: Member)
    requires DistinctKeys(ms) && m in ms
    ensures Lookup(ms, m.key) == Some(m.value)
  {
    if ms[0] != m {
      var i :| 0 <= i < |ms| && ms[i] == m;
      assert ms[1..][i - 1] == m;
      LookupFinds(ms[1..], m);
    }
  }

  lemma {:induction false} LookupIsMember(ms: seq<Member>, key: string)
    requires Lookup(ms, key).Some?
    ensures Member(key, Lookup(ms, key).value) in ms
  {
    if ms[0].key != key {
      LookupIsMember(ms[1..], key);
    } else {
      assert ms[0] == Member(key, Lookup(ms, key).value);
    }
  }

  function SortedOption(v: Option<Value>): Option<Value> {
    if v.Some? then Some(Sort(CodePointOrder, v.value)) else None
  }

  /** Canonicalising a message does not change what a key leads to, except to
      canonicalise it too. */
  lemma GetSorted(v: Value, key: string)
    requires WellFormed(v)
    ensures Get(Sort(CodePointOrder, v), key) == SortedOption(Get(v, key))
  {
    if v.Obj? {
      var ms := v.members;
      var sorted := SortMembers(CodePointOrder, ms);
      SortWellFormed(v);
      if Lookup(ms, key).Some? {
        LookupIsMember(ms, key);
        var i :| 0 <= i < |ms| && ms[i] == Member(key, Lookup(ms, key).value);
        Lands(ms, i);
        LookupFinds(sorted, Member(key, Sort(CodePointOrder, ms[i].value)));
      } else if Lookup(sorted, key).Some? {
        LookupIsMember(sorted, key);
        var i := Origin(ms, Member(key, Lookup(sorted, key).value));
      }
    }
  }

  /** What is asked of the host's JSON reader and its decoder of the discover
      result. Either may refuse; what the reader accepts it must read as it was
      printed, but for the text of numbers, which it may reprint; and the
      decoder must not read a count as another. */
  ghost predicate Faithful(serde: Serde, reprint: string -> string) {
    && (forall v :: WellFormed(v) ==>
          serde.parse(Print(v)).None? || serde.parse(Print(v)) == Some(Relexed(v, reprint)))
    && (forall n: nat :: Counts(serde, reprint, n))
    && (forall url, verb, headers :: serde.asFetch(AsRead(FetchValue(url, verb, headers), reprint)))
  }

  /** A message as such a reader sees it, canonicalised by the writer. */
  function AsRead(v: Value, reprint: string -> string): Value {
    Relexed(Sort(CodePointOrder, v), reprint)
  }

  predicate Counts(serde: Serde, reprint: string -> string, n: nat) {
    var count := serde.asCount(Relexed(CountResult(n), reprint));
    count.None? || count == Some(n)
  }

  function ReadDecimal(s: string): Option<nat> {
    if s == "" then Some(0)
    else
      var last := s[|s| - 1];
      var high := ReadDecimal(s[..|s| - 1]);
      if '0' <= last <= '9' && high.Some? then Some(high.value * 10 + (last as int - '0' as int)) else None
  }

  lemma {:induction false} DecimalRoundTrip(n: nat)
    ensures ReadDecimal(Decimal(n)) == Some(n)
  {
    var d := Decimal(n);
    if n < 10 {
      assert d[..0] == "";
    } else {
      DecimalRoundTrip(n / 10);
      assert d[..|d| - 1] == Decimal(n / 10);
    }
  }

  const U64_MAX: nat := 0xFFFF_FFFF_FFFF_FFFF

  const NESTING_LIMIT: nat := 128

  function Depth(v: Value): nat
    decreases v
  {
    match v
    case Arr(items) => 1 + DepthOfItems(items)
    case Obj(ms) => 1 + DepthOfMembers(ms)
    case _ => 0
  }

  function DepthOfItems(items: seq<Value>): nat
    decreases items
  {
    if items == [] then 0
    else if Depth(items[0]) > DepthOfItems(items[1..]) then Depth(items[0])
    else DepthOfItems(items[1..])
  }

  function DepthOfMembers(ms: seq<Member>): nat
    decreases ms
  {
    if ms == [] then 0
    else if Depth(ms[0].value) > DepthOfMembers(ms[1..]) then Depth(ms[0].value)
    else DepthOfMembers(ms[1..])
  }

  /** A reader like the host's library: it refuses deep nesting, and reprints
      numbers. */
  function LimitedParse(s: string, reprint: string -> string): Option<Value> {
    match Parse(s)
    case Some(v) => if Depth(v) < NESTING_LIMIT then Some(Relexed(v, reprint)) else None
    case None => None
  }

  /** A decoder like the host's: the count is an unsigned 64-bit integer. */
  function LimitedCount(v: Value): Option<nat> {
    match Get(v, "records")
    case Some(Number(lexeme)) =>
      (match ReadDecimal(lexeme)
       case Some(n) => if n <= U64_MAX then Some(n) else None
       case None => None)
    case _ => None
  }

  /** A decoder like the host's: strings, and a map of strings that may be left
      out. */
  predicate LimitedFetch(v: Value) {
    && AsStr(Get(v, "url")).Some? && AsStr(Get(v, "method")).Some?
    && match Get(v, "headers")
       case None => true
       case Some(Obj(ms)) => forall i :: 0 <= i < |ms| ==> ms[i].value.Str?
       case Some(_) => false
  }

  /** Unsigned 64-bit integers are reprinted as they were; a larger integer, as
      something that is not the text of one. */
  ghost predicate KeepsIntegers(reprint: string -> string) {
    forall n: nat ::
      if n <= U64_MAX then reprint(Decimal(n)) == Decimal(n)
      else ReadDecimal(reprint(Decimal(n))).None? || ReadDecimal(reprint(Decimal(n))).value > U64_MAX
  }

  /** The host's kind of reader meets what is asked of it, whatever its numbers
      look like. */
  lemma LimitedReaderIsFaithful(serde: Serde, reprint: string -> string)
    requires KeepsIntegers(reprint)
    ensures Faithful(Limited(serde, reprint), reprint)
  {
    var limited := Limited(serde, reprint);
    forall v | WellFormed(v)
      ensures limited.parse(Print(v)).None? || limited.parse(Print(v)) == Some(Relexed(v, reprint))
    {
      ParseInvertsPrint(v);
    }
    forall n: nat
      ensures Counts(limited, reprint, n)
    {
      CountRelexed(n, reprint);
      DecimalRoundTrip(n);
    }
    forall url, verb, headers
      ensures limited.asFetch(AsRead(FetchValue(url, verb, headers), reprint))
    {
      FetchRead(url, verb, headers, reprint);
    }
  }

  function Limited(serde: Serde, reprint: string -> string): Serde {
    serde.(parse := s => LimitedParse(s, reprint), asCount := LimitedCount, asFetch := LimitedFetch)
  }

  lemma FetchRead(url: string, verb: string, headers: Headers, reprint: string -> string)
    ensures LimitedFetch(AsRead(FetchValue(url, verb, headers), reprint))
  {
    var v := FetchValue(url, verb, headers);
    assert WellFormed(Obj(headers));
    FieldRead(v, 0, reprint);
    FieldRead(v, 1, reprint);
    FieldRead(v, 2, reprint);
    HeadersStayText(headers, reprint);
    var read := AsRead(Obj(headers), reprint);
    assert read == Obj(RelexedMembers(SortMembers(CodePointOrder, headers), reprint));
    assert Get(AsRead(v, reprint), "headers") == Some(read);
  }

  lemma HeadersStayText(headers: Headers, reprint: string -> string)
    ensures var ms := RelexedMembers(SortMembers(CodePointOrder, headers), reprint);
            forall i :: 0 <= i < |ms| ==> ms[i].value.Str?
  {
    var sorted := SortMembers(CodePointOrder, headers);
    forall i | 0 <= i < |sorted|
      ensures sorted[i].value.Str?
    {
      var o := Origin(headers, sorted[i]);
    }
    RelexedText(sorted, reprint);
  }

  lemma {:induction false} RelexedText(ms: seq<Member>, reprint: string -> string)
    requires forall i :: 0 <= i < |ms| ==> ms[i].value.Str?
    ensures forall i :: 0 <= i < |ms| ==> RelexedMembers(ms, reprint)[i].value.Str?
  {
    if ms != [] {
      RelexedText(ms[1..], reprint);
    }
  }

  lemma CountRelexed(n: nat, reprint: string -> string)
    ensures Get(Relexed(CountResult(n), reprint), "records") == Some(Number(reprint(Decimal(n))))
  {
    GetRelexed(CountResult(n), "records", reprint);
  }

  lemma ParsesBack(serde: Serde, reprint: string -> string, v: Value)
    requires Faithful(serde, reprint) && WellFormed(v)
    ensures serde.parse(CanonicalPython(v)).None? || serde.parse(CanonicalPython(v)) == Some(AsRead(v, reprint))
  {
    SortWellFormed(v);
  }

  /** The host recovers a field of an SDK message, canonicalised. */
  lemma FieldSeen(v: Value, i: nat)
    requires WellFormed(v) && v.Obj? && i < |v.members|
    ensures Get(Sort(CodePointOrder, v), v.members[i].key) == Some(Sort(CodePointOrder, v.members[i].value))
  {
    LookupFinds(v.members, v.members[i]);
    GetSorted(v, v.members[i].key);
  }

  lemma FieldAbsent(v: Value, key: string)
    requires WellFormed(v) && v.Obj?
    requires forall i :: 0 <= i < |v.members| ==> v.members[i].key != key
    ensures Get(Sort(CodePointOrder, v), key).None?
  {
    GetSorted(v, key);
  }

  /** The same as the host's reader gives it. */
  lemma FieldRead(v: Value, i: nat, reprint: string -> string)
    requires WellFormed(v) && v.Obj? && i < |v.members|
    ensures Get(AsRead(v, reprint), v.members[i].key) == Some(AsRead(v.members[i].value, reprint))
  {
    FieldSeen(v, i);
    GetRelexed(Sort(CodePointOrder, v), v.members[i].key, reprint);
  }

  lemma FieldUnread(v: Value, key: string, reprint: string -> string)
    requires WellFormed(v) && v.Obj?
    requires forall i :: 0 <= i < |v.members| ==> v.members[i].key != key
    ensures Get(AsRead(v, reprint), key).None?
  {
    FieldAbsent(v, key);
    GetRelexed(Sort(CodePointOrder, v), key, reprint);
  }

  /** A notification as the host sees it. */
  lemma NotificationSeen(name: string, params: Value, reprint: string -> string)
    requires WellFormed(params)
    ensures WellFormed(Notification(name, params))
    ensures var w := AsRead(Notification(name, params), reprint);
            && Get(w, "jsonrpc") == Some(Str("2.0")) && Get(w, "method") == Some(Str(name))
            && Get(w, "params") == Some(AsRead(params, reprint)) && Get(w, "id").None?
  {
    var v := Notification(name, params);
    FieldRead(v, 0, reprint);
    FieldRead(v, 1, reprint);
    FieldRead(v, 2, reprint);
    FieldUnread(v, "id", reprint);
  }

  lemma RequestSeen(id: string, name: string, params: Value, reprint: string -> string)
    requires WellFormed(params)
    ensures WellFormed(Request(id, name, params))
    ensures var w := AsRead(Request(id, name, params), reprint);
            && Get(w, "jsonrpc") == Some(Str("2.0")) && Get(w, "method") == Some(Str(name))
            && Get(w, "id") == Some(Str(id)) && Get(w, "params") == Some(AsRead(params, reprint))
  {
    var v := Request(id, name, params);
    FieldRead(v, 0, reprint);
    FieldRead(v, 1, reprint);
    FieldRead(v, 2, reprint);
    FieldRead(v, 3, reprint);
  }

  lemma ResponseSeen(id: string, result: Value, reprint: string -> string)
    requires WellFormed(result)
    ensures WellFormed(Response(id, result))
    ensures var w := AsRead(Response(id, result), reprint);
            && Get(w, "jsonrpc") == Some(Str("2.0")) && Get(w, "method").None? && Get(w, "id") == Some(Str(id))
            && Get(w, "error").None? && Get(w, "result") == Some(AsRead(result, reprint))
  {
    var v := Response(id, result);
    FieldRead(v, 0, reprint);
    FieldRead(v, 1, reprint);
    FieldRead(v, 2, reprint);
    FieldUnread(v, "method", reprint);
    FieldUnread(v, "error", reprint);
  }

  lemma ErrorSeen(id: string, error: Value, reprint: string -> string)
    requires WellFormed(error)
    ensures WellFormed(ErrorResponse(id, error))
    ensures var w := AsRead(ErrorResponse(id, error), reprint);
            && Get(w, "jsonrpc") == Some(Str("2.0")) && Get(w, "method").None? && Get(w, "id") == Some(Str(id))
            && Get(w, "error").Some?
  {
    var v := ErrorResponse(id, error);
    FieldRead(v, 0, reprint);
    FieldRead(v, 1, reprint);
    FieldRead(v, 2, reprint);
    FieldUnread(v, "method", reprint);
  }

  /** Record params as the host sees them: the same request id, and the record
      values as read. */
  lemma OneRecordSeen(requestId: string, record: JsonValue, reprint: string -> string)
    ensures var params := Object2("request_id", Str(requestId), "record", record);
            && WellFormed(params)
            && var w := AsRead(params, reprint);
               && Get(w, "request_id") == Some(Str(requestId))
               && RecordValues(w) == Ok([AsRead(record, reprint)])
  {
    var params := Object2("request_id", Str(requestId), "record", record);
    FieldRead(params, 0, reprint);
    FieldRead(params, 1, reprint);
    FieldUnread(params, "records", reprint);
  }

  function AllRead(records: seq<JsonValue>, reprint: string -> string): seq<Value> {
    RelexedItems(SortItems(CodePointOrder, records), reprint)
  }

  lemma BatchSeen(requestId: string, batch: seq<JsonValue>, reprint: string -> string)
    requires |batch| <= MAX_RECORD_BATCH
    ensures var params := Object2("request_id", Str(requestId), "records", Arr(batch));
            && WellFormed(params)
            && var w := AsRead(params, reprint);
               && Get(w, "request_id") == Some(Str(requestId))
               && RecordValues(w) == Ok(AllRead(batch, reprint))
    ensures |AllRead(batch, reprint)| == |batch|
            && forall i :: 0 <= i < |batch| ==> AllRead(batch, reprint)[i] == AsRead(batch[i], reprint)
  {
    var list := Arr(batch);
    assert WellFormed(list);
    var params := Object2("request_id", Str(requestId), "records", list);
    TwoFieldsSeen("request_id", Str(requestId), "records", list, "record", reprint);
    ListParams(AsRead(params, reprint), AllRead(batch, reprint));
    SortItemsAt(batch);
    RelexedItemsAt(SortItems(CodePointOrder, batch), reprint);
  }

  lemma {:induction false} RelexedItemsAt(items: seq<Value>, reprint: string -> string)
    ensures forall i :: 0 <= i < |items| ==> RelexedItems(items, reprint)[i] == Relexed(items[i], reprint)
  {
    if items != [] {
      RelexedItemsAt(items[1..], reprint);
    }
  }

  lemma TwoFieldsSeen(a: string, v: Value, b: string, w: Value, other: string, reprint: string -> string)
    requires WellFormed(v) && WellFormed(w) && a != b && other != a && other != b
    ensures var o := Object2(a, v, b, w);
            && WellFormed(o)
            && Get(AsRead(o, reprint), a) == Some(AsRead(v, reprint))
            && Get(AsRead(o, reprint), b) == Some(AsRead(w, reprint))
            && Get(AsRead(o, reprint), other).None?
  {
    var o := Object2(a, v, b, w);
    FieldRead(o, 0, reprint);
    FieldRead(o, 1, reprint);
    FieldUnread(o, other, reprint);
  }

  lemma ListParams(w: Value, items: seq<Value>)
    requires Get(w, "record").None? && Get(w, "records") == Some(Arr(items)) && |items| <= MAX_RECORD_BATCH
    ensures RecordValues(w) == Ok(items)
  {
  }

  lemma ArgsSeen(ask: Ask, reprint: string -> string)
    requires !ask.HostFetch?
    ensures WellFormed(QueryArgs(ask))
    ensures var w := AsRead(QueryArgs(ask), reprint);
            && Get(w, "source_name") == Some(Str(ask.sourceName))
            && (AboutOnePost(ask) ==> Get(w, "source_url") == Some(Str(ask.sourceUrl)))
  {
    var v := QueryArgs(ask);
    FieldRead(v, 0, reprint);
    if AboutOnePost(ask) {
      FieldRead(v, 1, reprint);
    }
  }

  lemma QuerySeen(number: nat, ask: Ask, reprint: string -> string)
    requires !ask.HostFetch?
    ensures WellFormed(AskParams(number, ask))
    ensures QueryAccepted(AsRead(AskParams(number, ask), reprint)) <==> !Blank(ask)
  {
    ArgsSeen(ask, reprint);
    var v := AskParams(number, ask);
    FieldRead(v, 0, reprint);
    FieldRead(v, 1, reprint);
    FieldRead(v, 2, reprint);
  }

  lemma FetchSeen(serde: Serde, number: nat, ask: Ask, reprint: string -> string)
    requires Faithful(serde, reprint) && ask.HostFetch?
    ensures WellFormed(AskParams(number, ask))
    ensures FetchAccepted(serde, AsRead(AskParams(number, ask), reprint))
  {
    var request := FetchValue(ask.url, ask.verb, ask.headers);
    assert WellFormed(Obj(ask.headers));
    assert WellFormed(request);
    TwoFieldsSeen("id", Str("fetch-" + Decimal(number)), "request", request, "", reprint);
    assert !Text.IsSpace(("fetch-" + Decimal(number))[0]);
  }

  /** The host accepts what the SDK asks, but for a state query with a blank
      argument. */
  lemma AskAcceptedExactly(serde: Serde, number: nat, ask: Ask, reprint: string -> string)
    requires Faithful(serde, reprint)
    ensures WellFormed(AskParams(number, ask))
    ensures ParamsAccepted(serde, AskName(ask), AsRead(AskParams(number, ask), reprint)) <==> !Blank(ask)
  {
    if ask.HostFetch? {
      FetchSeen(serde, number, ask, reprint);
    } else {
      QuerySeen(number, ask, reprint);
    }
  }

  // ---------------------------------------------------------------------
  // The context object
  // ---------------------------------------------------------------------

  /** The payload of one frame, if it fits in a frame. */
  function Payload(message: Value): string {
    CanonicalPython(message)
  }

  predicate Sendable(message: Value) {
    Framing.Fits(Payload(message))
  }

  /** Consecutive batches of at most `MAX_RECORD_BATCH`, all full but the last. */
  function Batches(records: seq<JsonValue>): (r: seq<seq<JsonValue>>)
    ensures forall i :: 0 <= i < |r| ==> 1 <= |r[i]| <= MAX_RECORD_BATCH
    decreases |records|
  {
    if records == [] then []
    else if |records| <= MAX_RECORD_BATCH then [records]
    else [records[..MAX_RECORD_BATCH]] + Batches(records[MAX_RECORD_BATCH..])
  }

  function Flatten(batches: seq<seq<JsonValue>>): seq<JsonValue> {
    if batches == [] then [] else batches[0] + Flatten(batches[1..])
  }

  /** Batching neither drops, repeats nor reorders a record. */
  lemma {:induction false} BatchesPartition(records: seq<JsonValue>)
    ensures Flatten(Batches(records)) == records
    ensures forall i :: 0 <= i < |Batches(records)| - 1 ==> |Batches(records)[i]| == MAX_RECORD_BATCH
    decreases |records|
  {
    if records == [] {
    } else if |records| <= MAX_RECORD_BATCH {
      assert [records][1..] == [];
      assert Flatten([records]) == records + [];
    } else {
      BatchesPartition(records[MAX_RECORD_BATCH..]);
      var tail := Batches(records[MAX_RECORD_BATCH..]);
      assert Batches(records)[1..] == tail;
      assert records == records[..MAX_RECORD_BATCH] + records[MAX_RECORD_BATCH..];
    }
  }

  /** A prefix of the batches has been sent; the first unsent one is too large
      for a frame, if any is left. */
  function SentBatches(requestId: string, batches: seq<seq<JsonValue>>): (k: nat)
    ensures k <= |batches|
    ensures forall i :: 0 <= i < k ==> Sendable(BatchMessage(requestId, batches[i]))
    ensures k < |batches| ==> !Sendable(BatchMessage(requestId, batches[k]))
  {
    if batches == [] || !Sendable(BatchMessage(requestId, batches[0])) then 0
    else 1 + SentBatches(requestId, batches[1..])
  }

  function BatchPayloads(requestId: string, batches: seq<seq<JsonValue>>): (r: seq<string>)
    ensures |r| == |batches|
  {
    seq(|batches|, i requires 0 <= i < |batches| => Payload(BatchMessage(requestId, batches[i])))
  }

  function TotalLength(batches: seq<seq<JsonValue>>): nat {
    if batches == [] then 0 else TotalLength(batches[..|batches| - 1]) + |batches[|batches| - 1]|
  }

  class PluginContext {
    const requestId: string
    var records: nat
    var wire: seq<string>
    var nextId: nat
    var nextState: nat
    var nextFetch: nat

    constructor (requestId: string)
      ensures this.requestId == requestId && records == 0 && wire == []
      ensures nextId == nextState == nextFetch == 1
    {
      this.requestId, records, wire := requestId, 0, [];
      nextId, nextState, nextFetch := 1, 1, 1;
    }

    /** `runtime.write`: false stands for the exception that a payload too large
        for a frame raises before anything is written. */
    method Write(message: Value) returns (ok: bool)
      modifies this`wire
      ensures ok == Sendable(message)
      ensures wire == old(wire) + if ok then [Payload(message)] else []
    {
      ok := Framing.Fits(Payload(message));
      if ok {
        wire := wire + [Payload(message)];
      }
    }

    method SendRecord(record: JsonValue) returns (ok: bool)
      modifies this`wire, this`records
      ensures ok == Sendable(RecordMessage(requestId, record))
      ensures wire == old(wire) + if ok then [Payload(RecordMessage(requestId, record))] else []
      ensures records == old(records) + if ok then 1 else 0
    {
      ok := Write(RecordMessage(requestId, record));
      if ok {
        records := records + 1;
      }
    }

    /** `_send_record_batch`. */
    method SendRecordBatch(batch: seq<JsonValue>) returns (ok: bool)
      modifies this`wire, this`records
      ensures ok == Sendable(BatchMessage(requestId, batch))
      ensures wire == old(wire) + if ok then [Payload(BatchMessage(requestId, batch))] else []
      ensures records == old(records) + if ok then |batch| else 0
    {
      ok := Write(BatchMessage(requestId, batch));
      if ok {
        records := records + |batch|;
      }
    }

    /** `_send_record_batch` as the loop below uses it. */
    method SendNext(
      batch: seq<JsonValue>, ghost batches: seq<seq<JsonValue>>, ghost sent: nat, ghost wire0: seq<string>,
      ghost records0: nat) returns (ok: bool)
      requires sent < |batches| && batches[sent] == batch
      requires Sent(requestId, batches, sent, wire0, wire, records0, records)
      modifies this`wire, this`records
      ensures ok ==> Sent(requestId, batches, sent + 1, wire0, wire, records0, records)
      ensures !ok ==> SentBatches(requestId, batches) == sent
                      && Sent(requestId, batches, sent, wire0, wire, records0, records)
    {
      SentOrStopped(requestId, batches, sent, wire0, wire, records0, records);
      ok := SendRecordBatch(batch);
      if !ok {
        assert wire == old(wire);
      }
    }

    /** The request of `_request_host`; waiting for the answer is not part of
        the model. Ids count up whether or not the write succeeds. */
    method WriteRequest(ask: Ask) returns (ok: bool)
      modifies this`wire, this`nextId, this`nextState, this`nextFetch
      ensures nextId == old(nextId) + 1
      ensures nextState == old(nextState) + if ask.HostFetch? then 0 else 1
      ensures nextFetch == old(nextFetch) + if ask.HostFetch? then 1 else 0
      ensures var number := if ask.HostFetch? then old(nextFetch) else old(nextState);
              && ok == Sendable(AskMessage(old(nextId), number, ask))
              && wire == old(wire) + if ok then [Payload(AskMessage(old(nextId), number, ask))] else []
    {
      var number := if ask.HostFetch? then nextFetch else nextState;
      var id := nextId;
      if ask.HostFetch? {
        nextFetch := nextFetch + 1;
      } else {
        nextState := nextState + 1;
      }
      nextId := nextId + 1;
      ok := Write(AskMessage(id, number, ask));
    }

    /** `send_records`: the frames written are the batches in order, cut short
        only by a batch that does not fit, and exactly those are counted. */
    method SendRecords(all: seq<JsonValue>) returns (ok: bool)
      modifies this`wire, this`records
      ensures var k := SentBatches(requestId, Batches(all));
              && ok == (k == |Batches(all)|)
              && wire == old(wire) + BatchPayloads(requestId, Batches(all)[..k])
              && records == old(records) + TotalLength(Batches(all)[..k])
    {
      ghost var batches := Batches(all);
      ghost var sent := 0;
      var batch: seq<JsonValue> := [];
      var i := 0;
      NoneSent(requestId, batches, wire, records);
      AllToDo(all);
      while i < |all|
        invariant 0 <= i <= |all| && |batch| < MAX_RECORD_BATCH
        invariant Sent(requestId, batches, sent, old(wire), wire, old(records), records)
        invariant ToDo(batches, sent, batch, all[i..])
      {
        TakeOne(batches, sent, batch, all, i);
        batch := batch + [all[i]];
        i := i + 1;
        if |batch| == MAX_RECORD_BATCH {
          BatchFull(batches, sent, batch, all[i..]);
          ok := SendNext(batch, batches, sent, old(wire), old(records));
          if !ok {
            return;
          }
          sent := sent + 1;
          batch := [];
        }
      }
      ok := true;
      LastBatch(batches, sent, batch, all[i..]);
      if batch != [] {
        ok := SendNext(batch, batches, sent, old(wire), old(records));
        if !ok {
          return;
        }
        sent := sent + 1;
      }
      StoppedAt(requestId, batches, sent, old(wire), wire, old(records), records);
    }

    method Log(level: string, message: string) returns (ok: bool)
      modifies this`wire
      ensures ok == Sendable(LogMessage(level, message))
      ensures wire == old(wire) + if ok then [Payload(LogMessage(level, message))] else []
    {
      ok := Write(LogMessage(level, message));
    }
  }

  /** The batches not yet sent are those of what is being gathered and what is
      still to come. */
  ghost predicate ToDo(batches: seq<seq<JsonValue>>, sent: nat, batch: seq<JsonValue>, rest: seq<JsonValue>) {
    sent <= |batches| && Batches(batch + rest) == batches[sent..]
  }

  lemma AllToDo(all: seq<JsonValue>)
    ensures ToDo(Batches(all), 0, [], all[0..])
  {
    assert [] + all[0..] == all;
  }

  lemma TakeOne(batches: seq<seq<JsonValue>>, sent: nat, batch: seq<JsonValue>, all: seq<JsonValue>, i: nat)
    requires i < |all| && ToDo(batches, sent, batch, all[i..])
    ensures ToDo(batches, sent, batch + [all[i]], all[i + 1..])
  {
    assert batch + all[i..] == (batch + [all[i]]) + all[i + 1..];
  }

  lemma BatchFull(batches: seq<seq<JsonValue>>, sent: nat, batch: seq<JsonValue>, rest: seq<JsonValue>)
    requires |batch| == MAX_RECORD_BATCH && ToDo(batches, sent, batch, rest)
    ensures sent < |batches| && batches[sent] == batch && ToDo(batches, sent + 1, [], rest)
  {
    if rest == [] {
      assert batch + rest == batch;
    } else {
      assert (batch + rest)[..MAX_RECORD_BATCH] == batch;
      assert (batch + rest)[MAX_RECORD_BATCH..] == rest;
    }
    assert [] + rest == rest;
    FirstOfRest(batches, sent, batch, Batches(rest));
  }

  lemma LastBatch(batches: seq<seq<JsonValue>>, sent: nat, batch: seq<JsonValue>, rest: seq<JsonValue>)
    requires |batch| < MAX_RECORD_BATCH && rest == [] && ToDo(batches, sent, batch, rest)
    ensures batch == [] ==> sent == |batches|
    ensures batch != [] ==> sent + 1 == |batches| && batches[sent] == batch
  {
    assert batch + rest == batch;
    if batch != [] {
      FirstOfRest(batches, sent, batch, []);
    }
  }

  /** The first `sent` batches, and nothing else, have been written and counted. */
  ghost predicate Sent(
    requestId: string, batches: seq<seq<JsonValue>>, sent: nat, wire0: seq<string>, wire: seq<string>,
    records0: nat, records: nat)
  {
    && sent <= |batches|
    && (forall j :: 0 <= j < sent ==> Sendable(BatchMessage(requestId, batches[j])))
    && wire == wire0 + BatchPayloads(requestId, batches[..sent])
    && records == records0 + TotalLength(batches[..sent])
  }

  lemma NoneSent(requestId: string, batches: seq<seq<JsonValue>>, wire: seq<string>, records: nat)
    ensures Sent(requestId, batches, 0, wire, wire, records, records)
  {
    assert batches[..0] == [];
    assert wire + BatchPayloads(requestId, []) == wire;
  }

  lemma FirstOfRest(batches: seq<seq<JsonValue>>, sent: nat, first: seq<JsonValue>, rest: seq<seq<JsonValue>>)
    requires sent <= |batches| && batches[sent..] == [first] + rest
    ensures sent < |batches| && batches[sent] == first && batches[sent + 1..] == rest
  {
    assert batches[sent..][0] == first && batches[sent..][1..] == rest;
  }

  lemma SentOneMore(
    requestId: string, batches: seq<seq<JsonValue>>, sent: nat, wire0: seq<string>, wire: seq<string>,
    records0: nat, records: nat)
    requires sent < |batches| && Sendable(BatchMessage(requestId, batches[sent]))
    requires Sent(requestId, batches, sent, wire0, wire, records0, records)
    ensures Sent(requestId, batches, sent + 1, wire0, wire + [Payload(BatchMessage(requestId, batches[sent]))],
                 records0, records + |batches[sent]|)
  {
    assert batches[..sent + 1][..sent] == batches[..sent];
    var payload := Payload(BatchMessage(requestId, batches[sent]));
    var before := BatchPayloads(requestId, batches[..sent]);
    assert BatchPayloads(requestId, batches[..sent + 1]) == before + [payload];
    assert (wire0 + before) + [payload] == wire0 + (before + [payload]);
  }

  lemma SentOrStopped(
    requestId: string, batches: seq<seq<JsonValue>>, sent: nat, wire0: seq<string>, wire: seq<string>,
    records0: nat, records: nat)
    requires sent < |batches| && Sent(requestId, batches, sent, wire0, wire, records0, records)
    ensures if Sendable(BatchMessage(requestId, batches[sent]))
            then Sent(requestId, batches, sent + 1, wire0, wire + [Payload(BatchMessage(requestId, batches[sent]))],
                      records0, records + |batches[sent]|)
            else SentBatches(requestId, batches) == sent
  {
    if Sendable(BatchMessage(requestId, batches[sent])) {
      SentOneMore(requestId, batches, sent, wire0, wire, records0, records);
    } else {
      StoppedAt(requestId, batches, sent, wire0, wire, records0, records);
    }
  }

  lemma StoppedAt(
    requestId: string, batches: seq<seq<JsonValue>>, sent: nat, wire0: seq<string>, wire: seq<string>,
    records0: nat, records: nat)
    requires Sent(requestId, batches, sent, wire0, wire, records0, records)
    requires sent < |batches| ==> !Sendable(BatchMessage(requestId, batches[sent]))
    ensures SentBatches(requestId, batches) == sent
  {
  }
}
