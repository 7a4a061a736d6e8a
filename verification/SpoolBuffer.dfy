/** `RunState` as the host updates it in place, proved against the functions the
    step system uses. */
module SpoolBuffer {
  import opened Wrappers
  import opened Json
  import opened Domain
  import opened Spool
  import Utf8

  /** `saturating_add` on 64-bit words. */
  function SaturatingAdd(a: nat, b: nat): nat {
    if a + b > WORD_MAX then WORD_MAX else a + b
  }

  function Clamped(n: nat): nat {
    if n > WORD_MAX then WORD_MAX else n
  }

  class Buffer {
    var records: seq<SourceRecord>
    var logs: seq<Log>
    var recordBytes: nat
    var logBytes: nat
    const maxRecords: Option<nat>

    /** A run's limits always pass through `with_host_caps`. */
    constructor (limit: Option<nat>)
      ensures Valid() && View() == NewRunState(Some(EffectiveMax(limit)))
    {
      records, logs, recordBytes, logBytes := [], [], 0, 0;
      maxRecords := Some(EffectiveMax(limit));
    }

    ghost predicate Valid()
      reads this
    {
      && WithinCaps(View())
      && maxRecords.Some? && maxRecords.value <= HOST_MAX_RECORDS
    }

    ghost function View(): RunState
      reads this
    {
      RunState(records, logs, maxRecords, recordBytes, logBytes)
    }

    /** The loop that sizes a batch. */
    static method Measure(values: seq<Value>) returns (incoming: nat, bytes: nat)
      ensures incoming == Clamped(|values|) && bytes == Clamped(TotalSize(values))
    {
      incoming, bytes := 0, 0;
      for i := 0 to |values|
        invariant incoming == Clamped(i)
        invariant bytes == Clamped(TotalSize(values[..i]))
      {
        assert values[..i + 1][..i] == values[..i];
        incoming := SaturatingAdd(incoming, 1);
        bytes := SaturatingAdd(bytes, JsonSize(values[i]));
      }
      assert values[..|values|] == values;
    }

    /** The saturating sums give the verdict of the exact sums: no total,
        however large, can slip under a cap by wrapping or saturating. */
    method ReserveRecordValues(values: seq<Value>) returns (r: Result<(), Violation>)
      requires Valid()
      modifies this`recordBytes
      ensures Valid()
      ensures match Reserve(old(View()), values)
              case Err(why) => r == Err(why) && View() == old(View())
              case Ok(next) => r == Ok(()) && View() == next
    {
      var incoming, incomingBytes := Measure(values);
      if maxRecords.Some? {
        var next := SaturatingAdd(|records|, incoming);
        if next > maxRecords.value {
          return Err(TooManyRecords);
        }
      }
      r := ReserveRecordBytes(incomingBytes, TotalSize(values));
    }

    method ReserveRecordBytes(incoming: nat, ghost total: nat) returns (r: Result<(), Violation>)
      requires Valid() && incoming == Clamped(total)
      modifies this`recordBytes
      ensures Valid()
      ensures if old(recordBytes) + total > HOST_MAX_RECORD_BYTES
              then r == Err(TooManyRecordBytes) && recordBytes == old(recordBytes)
              else r == Ok(()) && recordBytes == old(recordBytes) + total
    {
      var next := SaturatingAdd(recordBytes, incoming);
      if next > HOST_MAX_RECORD_BYTES {
        return Err(TooManyRecordBytes);
      }
      recordBytes := next;
      r := Ok(());
    }

    method PushLogEntry(log: Log) returns (r: Result<(), Violation>)
      requires Valid()
      modifies this`logs, this`logBytes
      ensures Valid()
      ensures match PushLog(old(View()), log)
              case Err(why) => r == Err(why) && View() == old(View())
              case Ok(next) => r == Ok(()) && View() == next
    {
      var incoming := SaturatingAdd(|Utf8.Encode(log.level)|, |Utf8.Encode(log.message)|);
      var next := SaturatingAdd(logBytes, incoming);
      if next > HOST_MAX_LOG_BYTES {
        return Err(TooManyLogBytes);
      }
      logBytes := next;
      logs := logs + [log];
      r := Ok(());
    }

    /** `spool_records`: a batch that fails half-way keeps its reservation and
        the records already pushed, and reports the failure. */
    method SpoolParams(serde: Serde, source: string, params: Value) returns (r: Result<(), HostError>)
      requires Valid()
      modifies this`records, this`recordBytes
      ensures Valid()
      ensures match SpoolRecords(serde, source, params, old(View()))
              case Kept(next) => r == Ok(()) && View() == next
              case Rejected(next, error) => r == Err(error) && View() == next
    {
      var carried := RecordValues(params);
      if carried.Err? {
        return Err(Protocol(carried.error));
      }
      var values := carried.value;
      var reserved := ReserveRecordValues(values);
      if reserved.Err? {
        return Err(Protocol(reserved.error));
      }
      ghost var start := View();
      var i := 0;
      while i < |values|
        invariant 0 <= i <= |values|
        invariant View() == start.(records := records)
        invariant PushAll(serde, source, values, start) == PushAll(serde, source, values[i..], View())
        invariant |records| + (|values| - i) <= maxRecords.value
      {
        var record := serde.asRecord(values[i]);
        if record.None? {
          return Err(MalformedJson);
        }
        if !Acceptable(serde, source, record.value) {
          return Err(InvalidRecord);
        }
        assert values[i..][1..] == values[i + 1..];
        records := records + [record.value];
        i := i + 1;
      }
      r := Ok(());
    }
  }
}
