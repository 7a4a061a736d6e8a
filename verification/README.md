# Magazine core: a verified model

The repository is a plugin ingestion core. A host supervises a subprocess
plugin over length-prefixed JSON-RPC frames, spools the records it sends, and
commits the spool to a canonical database, which a read view and a small
management UI expose. This project models that path in Dafny and proves what
holds across steps, interleavings and whole histories.

`dafny verify dfyconfig.toml` checks everything. One module per file.

## What is modelled

**Bytes and values.** `Utf8` and `Json` are an encoder/decoder and a
printer/parser pair with both inverses. `Canonical` sorts object keys in the
Rust order (UTF-8 bytes) and in the Python order (code points). `Framing` has
the frame readers and writers of both languages: as functions of a byte stream,
and as the loops over an interruptible stream that compute them.

**The host.** `Spool` says what the host makes of one frame and keeps account of
records, bytes and logs; `SpoolBuffer` is the same accounting as the mutable
object with saturating counters. `HostRun` is a step system: the plugin writes
and exits, the reader thread fills a 16-slot queue, the host drains it under a
deadline and a cancel token, the clock moves, in any order. Its main result is
what a returned success implies about everything the plugin ever wrote;
`HostSuccess` is the converse, so together they say exactly which outputs a
success can have; `HostEndings` says why runs fail and what a cancellation
stops. `HostLoop` has the waiting loops themselves and shows that they end, and
in time; `HostTurns` shows that each of their turns is a stretch of a discover
run.

**The plugin.** `Sdk` is the Python side: message layout, batching, requests to
the host, the counter. `Conservation` puts the SDK and the host at two ends of a
channel; the SDK's moves are its calls, and `Callback` shows that any calls on
the context object are such moves. What is assumed of the host's JSON reader is
that it refuses a text or reads back what was printed, up to how numbers are
spelt; `Sdk.LimitedReaderIsFaithful` shows that a reader with a nesting limit, a
64-bit count and reprinted numbers qualifies.

**The database.** `Database` has the tables as data, the upsert as a function of
them, and the transaction that performs it statement by statement while the
engine may fail at any statement. `Ledger` is a fold over the committed history
that mentions no table; the tables refine it. `Stored` draws the consequences:
identity, the stored fingerprint, ingesting a batch again. `Keyset` is the read
view's pagination, followed while ingests go on between and within the pages;
`ChildReads` are the queries for a row's children.

**Around them.** `UiRun` is the run controller of the management UI, its workers
making host runs of `HostRun`; `HttpReader` is its request reader (`HttpHead`
writes heads for it to read back), `Broker` the browser script, `Fetch` and
`FetchPolicy` the redirect loop and what it may reach, `Manifests` the strict
and the best-effort reader of the plugin directory.

Code that changes things step by step is imperative here too: classes with the
source's fields, and loops proved against specification functions. The
properties of those functions are the lemmas.

## Where the code and its documentation differ

`crates/mh-protocol/src/framing.rs:69-71` says that a short body is always
`Truncated`. The routine that fills the length prefix is reused for the body
(line 80), so a header announcing a non-empty body and followed at once by the
end of the stream gives `Eof`. The model follows the code.
`Framing.RustEofExactly` states when the Rust reader says `Eof`,
`Framing.ReadersDisagreeExactly` that this is the only difference from the
Python reader, and `Framing.BareHeaderWitness` is an instance. The host takes
such an `Eof` for a clean end (`crates/mh-host/src/lib.rs:1282`), so a run can
succeed although the plugin's output ends in a bare header:
`HostSuccess.SuccessExactly` says that the outputs of successful runs are the
accepted conversations, followed by nothing or by any bare header.

`crates/mh-db/src/lib.rs:752-797` compares a record's fingerprint with the one
stored before it, so a batch that says two things about one post can move the
post's update time whenever it is ingested again, although nothing else in the
row changes but when it was last seen. `Stored.ReingestMovesUpdatedAtExactly` has the exact condition.

The UI cancels through a shared flag; that an accepted cancel is never followed
by an ingest rests on the gate reading the flag under the same lock, and the
model keeps the two as separate steps to show it.

## Model

| member | source | states |
|---|---|---|
| Utf8.DecodeInvertsEncode | crates/mh-protocol/src/framing.rs:82-83 | Decoding the UTF-8 encoding of any text gives the text back (section 3 of RFC 3629) |
| Utf8.OnlyEncodingsDecode | crates/mh-protocol/src/framing.rs:82-83 | Bytes decode to a text only if they are exactly its encoding: no second spelling is accepted |
| Utf8.EncodingPreservesOrder | crates/mh-protocol/src/framing.rs:105-110 | Comparing encodings byte by byte orders texts as comparing code points does (section 1 of RFC 3629) |
| Json.ReadPrinted | crates/mh-protocol/src/framing.rs:119-120 | Followed by anything that cannot extend a number, the compact text of any value is read back as that value and nothing of what follows is consumed |
| Json.ParseInvertsPrint | crates/mh-protocol/src/framing.rs:119-120 | Parsing a printed value gives exactly that value, so printing is unambiguous (sections 2-7 of RFC 8259) |
| Json.GetRelexed | crates/mh-host/src/lib.rs:808-819 | Reading numbers in another spelling commutes with looking up a field, and touches no text and no key |
| Canonical.OrdersAgree | sdk/python/src/magazine_core_plugin_sdk/framing.py:60-69 | Two keys compare alike in the Rust and in the Python order |
| Canonical.LanguagesAgree | sdk/python/src/magazine_core_plugin_sdk/framing.py:60-100 | The Rust and the Python canonical texts of any value are the same text |
| Canonical.SortMembersSorts | crates/mh-protocol/src/framing.rs:101-118 | Sorting an object gives ascending keys and, as a multiset, the same members with sorted values |
| Canonical.CanonicalDecidesEquality | crates/mh-db/src/lib.rs:910-927 | Two values have one canonical text exactly when they are equal up to key order at every depth |
| Canonical.CanonicalIdempotent | crates/mh-db/src/lib.rs:910-927 | Reading a canonical text back gives an equal value up to key order, with the same canonical text |
| Framing.LengthRoundTrip | crates/mh-protocol/src/framing.rs:86-95 | The four-byte big-endian length is read back as written |
| Framing.FrontOfFrame | crates/mh-protocol/src/framing.rs:72-84 | A frame at the front of a stream is read back whole by both readers, and the rest is left untouched |
| Framing.OnlyFramesAreRead | crates/mh-protocol/src/framing.rs:72-84 | Whatever a reader returns from a stream, the stream began with exactly its frame |
| Framing.StreamRoundTrip | crates/mh-protocol/src/framing.rs:72-96 | Writing any list of payloads within the limit and reading until the end gives the list, then `Eof`, in both languages |
| Framing.RustEofExactly | crates/mh-protocol/src/framing.rs:47-84 | The Rust reader says `Eof` exactly on an empty stream or on a bare header: four bytes announcing a non-empty, allowed body |
| Framing.PythonEofExactly | sdk/python/src/magazine_core_plugin_sdk/framing.py:103-128 | The Python reader says end of stream exactly at a frame boundary |
| Framing.ReadersDisagreeExactly | sdk/python/src/magazine_core_plugin_sdk/framing.py:117-128 | The two readers give different results on a bare header and on no other stream |
| Framing.BareHeaderWitness | crates/mh-protocol/src/framing.rs:69-83 | A concrete stream on which `Eof` is not a boundary, against the reader's documentation |
| Framing.CutFrameYieldsNothing | crates/mh-protocol/src/framing.rs:47-84 | No strict prefix of a frame yields a payload, and where the cut is decides which error each reader reports |
| Framing.StreamExplained | crates/mh-protocol/src/framing.rs:72-84 | Any byte stream is the frames read from it, in order, followed by a tail that explains the final error |
| Framing.StreamOfFrames | crates/mh-protocol/src/framing.rs:72-84 | Frames followed by a tail that yields none are read as exactly those frames and the tail's error |
| Framing.EarlyReturnIsFinal | crates/mh-protocol/src/framing.rs:72-84 | When a read can return before the stream is closed, no later byte can change what it returned |
| Framing.ReadExactOrEof | crates/mh-protocol/src/framing.rs:47-63 | Under any chunking and any interrupts the fill loop delivers exactly the next bytes, or `Eof` on none and `Truncated` on some |
| Framing.ReadFrame | crates/mh-protocol/src/framing.rs:72-84 | The Rust frame reader computes the front of the stream whatever the chunking, and consumes exactly the frame |
| Framing.ReadFrames | crates/mh-protocol/src/framing.rs:72-84 | Reading until the first error collects exactly the stream's frames and its final error |
| Framing.PythonReadExact | sdk/python/src/magazine_core_plugin_sdk/framing.py:103-114 | The Python fill loop delivers exactly the wanted bytes; an early end is an end of stream only at a boundary with nothing read |
| Framing.PythonReadFrame | sdk/python/src/magazine_core_plugin_sdk/framing.py:117-128 | The Python frame reader computes the front of the stream whatever the chunking |
| Framing.WriteFrame | crates/mh-protocol/src/framing.rs:86-96 | Writing appends exactly the payload's frame, and refuses an oversized payload before writing anything |
| Spool.HandlingKeepsCaps | crates/mh-host/src/lib.rs:851-969 | Whatever a message does, also when it fails half way, spooled records, record bytes and log bytes stay within their caps |
| Spool.DigestKeepsCaps | crates/mh-host/src/lib.rs:794-849 | The same for any frame text, parsed or not |
| Spool.PushAllDecodes | crates/mh-host/src/lib.rs:926-969 | A batch that is kept appends the deserialised, valid records of all its values in order |
| Spool.DigestAccounts | crates/mh-host/src/lib.rs:794-924 | A kept frame extends the account: spooled records are the decoded values of all frames so far in order, byte counts their exact sums, logs those of all log frames |
| Spool.DigestShape | crates/mh-host/src/lib.rs:794-849 | A frame that goes on is a named plugin message; one that ends the wait is a response with the awaited id and a result |
| Spool.KeptExactly | crates/mh-host/src/lib.rs:794-924 | A frame is kept exactly when it is a well-formed record notification of this run that fits and is valid throughout, a log that fits, or a request of the plugin's namespace with acceptable parameters served without error |
| Spool.MessageKeptExactly | crates/mh-host/src/lib.rs:851-1046 | The same for a parsed message of any name, known to the host or not |
| Spool.AnsweredExactly | crates/mh-host/src/lib.rs:820-849 | A frame ends the wait with a result exactly when it is the awaited response and no error |
| SpoolBuffer.Buffer.Measure | crates/mh-host/src/lib.rs:1108-1130 | The saturating sum of value sizes is the exact sum or both exceed every cap: saturation never hides an overflow |
| SpoolBuffer.Buffer.ReserveRecordValues | crates/mh-host/src/lib.rs:1108-1130 | Reserving accepts exactly when the exact counts stay within both caps, and then changes only the byte counter |
| SpoolBuffer.Buffer.ReserveRecordBytes | crates/mh-host/src/lib.rs:1131-1141 | The saturating byte check equals the exact one |
| SpoolBuffer.Buffer.PushLogEntry | crates/mh-host/src/lib.rs:1142-1153 | A log is kept exactly when the exact sum of log lengths stays within the cap |
| SpoolBuffer.Buffer.SpoolParams | crates/mh-host/src/lib.rs:926-969 | The mutable buffer after one record message is the pure account after it, with the same error |
| HostRun.SuccessConsumesEverything | crates/mh-host/src/lib.rs:692-792 | In every interleaving, a returned success means the queue never overflowed, the child exited 0, and all bytes ever written are exactly the consumed frames in order, then nothing or a bare header |
| HostRun.SuccessTranscript | crates/mh-host/src/lib.rs:692-849 | Those frames are logs, an accepted initialize response, plugin messages, and last the discover response, whose count is the number of records returned |
| HostRun.SuccessReturnsEveryRecord | crates/mh-host/src/lib.rs:764-791 | The returned records are the in-order decoding of every value of every record frame, each valid for the manifest's source; the logs are all logs; caps hold |
| HostRun.CapsAlwaysHold | crates/mh-host/src/lib.rs:1085-1154 | In every state of every run, failed or not, the caps and the queue bound hold, and before failure the counters are exact sums over the consumed frames |
| HostRun.StepKeepsInv | crates/mh-host/src/lib.rs:692-849 | Every step of plugin, reader, host and clock keeps the invariant relating bytes, queue, consumed frames and spool |
| HostRun.RunInv | crates/mh-host/src/lib.rs:692-849 | So every reachable state has it |
| HostRun.ReadNextKeepsStream | crates/mh-host/src/lib.rs:1165-1238 | A frame read by the reader thread is the next frame of what the plugin wrote |
| HostRun.OfferKeepsStream | crates/mh-host/src/lib.rs:1165-1238 | Offering to the queue loses nothing unless it is full, and then the thread is on its way to raising the flag |
| HostRun.ConsumeKeepsStream | crates/mh-host/src/lib.rs:1252-1272 | Taking the head of the queue moves exactly one frame from queued to consumed |
| HostRun.DrainKeepsInv | crates/mh-host/src/lib.rs:1274-1286 | The final check turns an account into a success only when nothing is left in the queue but the final `Eof` |
| HostRun.FrameKeepsTranscript | crates/mh-host/src/lib.rs:794-924 | Any frame either fails the run or leaves a transcript that is right for the next phase |
| HostSuccess.AcceptedConversationSucceeds | crates/mh-host/src/lib.rs:692-792 | Every conversation the host accepts frame by frame, with the right count, then nothing or any bare header, is all the output of a run that returns exactly its manifest, records, logs and exit status 0 |
| HostSuccess.SuccessExactly | crates/mh-host/src/lib.rs:692-792 | Some run of the host on an output returns a given success exactly when the output is the frames of an accepted conversation with that outcome, then nothing or a bare header |
| HostEndings.FailureHasCause | crates/mh-host/src/lib.rs:692-1046 | In every interleaving every failure has its cause: a timeout the passed deadline, a cancellation a request, a full queue an overflow, a bad status the child, giving up the whole grace period since the discover response, an early exit or broken frame the end of the output or a failed send, a wrong count the records; anything else what the last frame says, all before it having been in order |
| HostEndings.CancelledOnlyOnRequest | crates/mh-host/src/lib.rs:801-806 | The host reports a cancellation only with a token, and only after it was set |
| HostEndings.CancelTakesAtMostOneMore | crates/mh-host/src/lib.rs:1055-1083 | From the moment a token is set the host takes at most one more frame, the one it is waiting for |
| HostLoop.Receiver.RecvFrame | crates/mh-host/src/lib.rs:1252-1272 | A receive ends by its own deadline, at once if that has passed |
| HostLoop.Receiver.Turn | crates/mh-host/src/lib.rs:801-848 | One turn polls, receives and keeps a frame or finishes; if it goes on, time has moved towards the deadline; a timeout is reported only past the deadline and a cancellation only if the poll saw it |
| HostLoop.Receiver.ReadUntilResponse | crates/mh-host/src/lib.rs:794-849 | The loop ends for every plugin, endless logs included, by the tick after the deadline and after at most as many receives as ticks; with a token no receive follows a poll that saw it set; success means kept messages and then the awaited response; a timeout means the deadline has passed and a cancellation that the last poll saw one |
| HostLoop.DigestFailures | crates/mh-host/src/lib.rs:794-924 | What a frame says can never make the host report an error of its own waiting or serving: a timeout, a cancellation, a full queue, a missing or bad exit, a broken frame, a failed service |
| HostTurns.TurnIsSteps | crates/mh-host/src/lib.rs:801-848 | Whatever plugin, reader, clock and canceller do while the loop waits, a turn of the loop is the host's own steps around theirs in a discover run: same clock, spool, frames taken and verdict |
| HostTurns.WaitIsSteps | crates/mh-host/src/lib.rs:794-849 | So the whole wait for a response is a stretch of a discover run |
| HostLoop.Reaper.WaitOrTerminate | crates/mh-host/src/lib.rs:1288-1301 | Waiting ends with the child gone, within one grace period if it exits by itself and within two otherwise, each overrun by less than one poll |
| HostLoop.Reaper.TerminateTree | crates/mh-host/src/lib.rs:1303-1345 | Termination ends with the child gone within one grace period, and kills only after asking and waiting that long |
| Sdk.DecimalRoundTrip | crates/mh-host/src/lib.rs:341-345 | The decimal text of a count is read back as that count |
| Sdk.LimitedReaderIsFaithful | crates/mh-host/src/lib.rs:338-345 | What is assumed of the host's JSON reader holds of one that limits nesting, reprints numbers and reads counts of 64 bits only |
| Sdk.GetSorted | sdk/python/src/magazine_core_plugin_sdk/framing.py:60-69 | A field of a canonicalised object is the canonicalised field |
| Sdk.BatchSeen | sdk/python/src/magazine_core_plugin_sdk/runtime.py:140-147 | The host reads from a batch message exactly its records, canonicalised, in order, up to the spelling of numbers |
| Sdk.OneRecordSeen | sdk/python/src/magazine_core_plugin_sdk/runtime.py:116-124 | The host reads from a single-record message exactly that record, up to the spelling of numbers |
| Sdk.ResponseSeen | sdk/python/src/magazine_core_plugin_sdk/runtime.py:370-389 | The host reads from a response message its id and its result |
| Sdk.AskAcceptedExactly | sdk/python/src/magazine_core_plugin_sdk/runtime.py:154-269 | The host accepts the parameters of an SDK request exactly when no argument it needs is blank |
| Sdk.BatchesPartition | sdk/python/src/magazine_core_plugin_sdk/runtime.py:126-135 | The batches put end to end are the input; each is non-empty and at most the limit; only the last may be short |
| Sdk.PluginContext.SendRecord | sdk/python/src/magazine_core_plugin_sdk/runtime.py:116-124 | A record that fits is written as one frame and counted once; otherwise nothing changes |
| Sdk.PluginContext.SendRecordBatch | sdk/python/src/magazine_core_plugin_sdk/runtime.py:140-147 | A batch that fits is written as one frame and all its records are counted; otherwise nothing changes |
| Sdk.PluginContext.SendRecords | sdk/python/src/magazine_core_plugin_sdk/runtime.py:126-135 | The frames written are the batches in order, cut short only by a batch that does not fit, and exactly their records are counted |
| Sdk.PluginContext.Log | sdk/python/src/magazine_core_plugin_sdk/runtime.py:149-152 | A log that fits is written as one frame and counts no record |
| Sdk.PluginContext.WriteRequest | sdk/python/src/magazine_core_plugin_sdk/runtime.py:271-290 | A request that fits is written as one frame under fresh ids; ids count up whether or not it fits |
| Conservation.SentIsSpooledPlusInFlight | sdk/python/src/magazine_core_plugin_sdk/runtime.py:116-147 | At every step of every interleaving, records sent by the SDK are those spooled by the host plus those in flight |
| Conservation.NeverAProtocolError | crates/mh-host/src/lib.rs:926-1046 | No callback using the SDK makes the host report a malformed conversation (an over-long batch, both payload forms, a wrong id, an unknown method); the only complaint about parameters is of a request with a blank argument |
| Conservation.PartyStepOk | sdk/python/src/magazine_core_plugin_sdk/runtime.py:126-147 | Whatever the SDK is called to do, it writes only messages the protocol allows, no batch over the limit among them, and nothing after the response; its counter is what it wrote |
| Conservation.CountCheckExactly | crates/mh-host/src/lib.rs:777-783 | When the response arrives, the count check passes exactly when the reported count is what the SDK sent |
| Conservation.CountNeverMismatches | sdk/python/src/magazine_core_plugin_sdk/runtime.py:370-389 | For a callback that returns None the count-mismatch error never fires |
| Conservation.MessageDigested | crates/mh-host/src/lib.rs:851-1046 | Each message the SDK can write is kept by the host with exactly the records it carries, or ends the run for an excusable reason or its blank argument |
| Conservation.RunInv | sdk/python/src/magazine_core_plugin_sdk/runtime.py:343-394 | Every reachable state of the two parties has the invariant the results above are read off |
| Callback.Perform | sdk/python/src/magazine_core_plugin_sdk/runtime.py:91-290 | Any calls on the context object write the texts of messages the SDK's moves write, and count what they count |
| Callback.SdkOfRun | sdk/python/src/magazine_core_plugin_sdk/runtime.py:370-389 | In any run of the two parties the SDK is where its own moves bring it, so all that is proved of those runs is proved of the object |
| Database.XorIsBitwise | crates/mh-db/src/lib.rs:929-936 | The exclusive or of the hash differs from an operand in exactly the other's bits |
| Database.Fnv1a64 | crates/mh-db/src/lib.rs:929-936 | The hash loop computes the recursive FNV-1a with products wrapped at 64 bits |
| Database.ReplacedHolds | crates/mh-db/src/lib.rs:938-996 | After delete and insert the owner has exactly the given list at positions 0 to n-1, and every other owner is untouched |
| Database.HoldsUnique | crates/mh-db/src/lib.rs:1178-1189 | An owner's list can be read back in only one way |
| Database.Transaction.ReplaceValues | crates/mh-db/src/lib.rs:938-956 | The statements replace exactly one owner's list, or stop at the statement that fails |
| Database.Transaction.ReplaceExternalLinks | crates/mh-db/src/lib.rs:958-996 | The same for links with their metadata text |
| Database.Transaction.Upsert | crates/mh-db/src/lib.rs:746-827 | Lookup and row statement together perform the upsert and give the row's id |
| Database.Transaction.IngestOne | crates/mh-db/src/lib.rs:746-854 | One record is ingested as the upsert says, exactly when the engine completes all its statements |
| Database.Store.IngestRecords | crates/mh-db/src/lib.rs:511-521 | The whole batch or nothing: success exactly when every record is valid and the engine completes every statement from opening to commit; any failure leaves the tables as before |
| Ledger.LastMeans | crates/mh-db/src/lib.rs:746-797 | The fold's last record of a key is the one at the greatest position that mentions it |
| Ledger.FirstMeans | crates/mh-db/src/lib.rs:798-827 | Its first is the one at the least position |
| Ledger.LastDateMeans | crates/mh-db/src/lib.rs:748-751 | Its date is that of the last mention with a date, and null only if none has one |
| Ledger.KeysMeans | crates/mh-db/src/lib.rs:26-46 | Its keys are exactly the mentioned ones, each once |
| Ledger.FindKnown | crates/mh-db/src/lib.rs:862-883 | On refined tables the lookup finds a row exactly for a mentioned key, and finds that key's row |
| Ledger.DateMatches | crates/mh-db/src/lib.rs:748-751 | The coalesced release date is the last non-null date ever committed under the key |
| Ledger.IngestRefines | crates/mh-db/src/lib.rs:746-854 | Ingesting one record is one step of the fold: rows, children, ids and sequence |
| Ledger.BatchRefines | crates/mh-db/src/lib.rs:511-521 | Ingesting a batch is that many steps |
| Ledger.Replay | crates/mh-db/src/lib.rs:511-521 | After any sequence of batches, some failing at any point, the tables refine the fold over exactly the committed ones |
| Stored.KeysAndIdsUnique | crates/mh-db/src/lib.rs:26-46 | One row per committed key and none else; ids are 1, 2, 3, … up to the sequence |
| Stored.IdsStable | crates/mh-db/src/lib.rs:746-827 | Every row keeps id, key and first-seen time through any later batch, and new rows get ids never issued before |
| Stored.ChildrenAre | crates/mh-db/src/lib.rs:938-996 | Lists are a row's children exactly when they are the last record's, so each list is at positions 0 to n-1 and complete |
| Stored.StoredPostIsLastRecord | crates/mh-db/src/lib.rs:746-908 | Reading a committed post back gives the last record under its key with the coalesced date, and the stored fingerprint is the fingerprint of exactly that |
| Stored.SameContentSameFingerprint | crates/mh-db/src/lib.rs:885-927 | Contents equal up to key order at every depth have one fingerprint |
| Stored.UpdatedAtFollowsFingerprint | crates/mh-db/src/lib.rs:752-797 | Ingesting a record leaves rows of other keys as they were; its own row's update time moves exactly when the stored fingerprint changes |
| Stored.ReingestChangesNothing | crates/mh-db/src/lib.rs:511-521 | Ingesting any batch again, keys repeating within it or not, changes no row, child or id but for last-seen and update times |
| Stored.ReingestMovesUpdatedAtExactly | crates/mh-db/src/lib.rs:752-797 | Ingesting a batch again leaves a row's update time alone exactly when every record of the batch about it, with its date or else the last one before it in the batch or else the stored one, has the stored fingerprint; otherwise it becomes the time of one of those records |
| Stored.ReingestKeepsUpdatedAt | crates/mh-db/src/lib.rs:752-797 | In particular it stays where the batch says only one thing about the key |
| Stored.UnsettledBatchMovesUpdatedAt | crates/mh-db/src/lib.rs:752-797 | And it moves where some dated record of the batch has another fingerprint than the stored one |
| Keyset.ViewPostsPage | crates/mh-db/src/lib.rs:284-367 | A page is the first rows behind the cursor, at most the clamped limit, each with its performers in order and its child counts, and gives a cursor exactly when full; it fails exactly when a requested extra does not parse |
| Keyset.PageShowsCommitted | crates/mh-db/src/lib.rs:284-367 | A page shows each post as its last committed record; if ingests commit while the page is read, performers and counts are each those of the last record committed by then |
| ChildReads.ListsWhatIsHeld | crates/mh-db/src/lib.rs:1168-1189 | Reading an owner's values by position gives exactly the list that was stored |
| ChildReads.ChildValues | crates/mh-db/src/lib.rs:1178-1189 | Child values are read in the order of their positions, none left out |
| Keyset.FollowCursor | crates/mh-db/src/lib.rs:272-361 | A reader that asks for page after page from the cursor it was given makes exactly the walk the results below are about |
| Keyset.MatchingMeans | crates/mh-db/src/lib.rs:293-313 | The query selects exactly the rows behind the cursor and of the source |
| Keyset.Resume | crates/mh-db/src/lib.rs:353-361 | Resuming after the k-th match selects exactly the matches behind it |
| Keyset.EvolvesPrefix | crates/mh-db/src/lib.rs:272-279 | Ingests only ever add matches at the end |
| Keyset.WalkIsPrefix | crates/mh-db/src/lib.rs:284-367 | With the posts evolving between pages, what a walk has returned is an initial part of the matches at its last page, and all of them when it ends |
| Keyset.WalkDuringIngests | crates/mh-db/src/lib.rs:284-367 | A walk over snapshots of a growing history returns strictly increasing ids; when it ends they are exactly those of the source's rows at the last page |
| Keyset.StaticPages | crates/mh-db/src/lib.rs:353-361 | On posts that stay put, n matches take n / limit + 1 pages |
| UiRun.ManagementState.Start | crates/mh-cli/src/ui.rs:577-593 | A start is refused while a run is active and otherwise becomes the active, cancellable run with a fresh token |
| UiRun.ManagementState.Cancel | crates/mh-cli/src/ui.rs:617-653 | A cancel is answered by body, active run, id and gate in that order, and sets the active run's token exactly when answered 202 |
| UiRun.ManagementState.MarkIngesting | crates/mh-cli/src/ui.rs:819-835 | The gate passes exactly for the active run with no cancel, and then closes it to cancels |
| UiRun.ManagementState.Finish | crates/mh-cli/src/ui.rs:600-611 | The clean-up frees the controller if the run is the active one and records the result |
| UiRun.AcceptedCancelNeverIngests | crates/mh-cli/src/ui.rs:617-653 | Once a cancel is answered 202 the run never passes the gate, never ingests and never completes as succeeded, at any time |
| UiRun.GateClosesCancel | crates/mh-cli/src/ui.rs:819-835 | Once a run has passed the gate every cancel of it is refused, and none was or will be accepted |
| UiRun.ActiveIsTheLiveWorker | crates/mh-cli/src/ui.rs:577-612 | At most one worker is live; the controller is active exactly while one is, and names it, even if run ids repeat |
| UiRun.CleanUpAlwaysClears | crates/mh-cli/src/ui.rs:600-611 | A worker's id-guarded clean-up always frees the controller, and the gate never misses its run |
| UiRun.StatusTellsTheTruth | crates/mh-cli/src/ui.rs:713-717 | A run reported cancelled had an accepted cancel, whatever the host run its worker made; one reported succeeded ingested, and one that ingested is reported so |
| UiRun.HostTellsTheTruth | crates/mh-cli/src/ui.rs:742-751 | A host run that ends as cancelled found the worker's token set |
| UiRun.StepKeepsInv | crates/mh-cli/src/ui.rs:565-653 | Every critical section and every worker step keeps the invariant these are read off |
| HttpReader.Connection.ReadWithinDeadline | crates/mh-cli/src/ui.rs:234-257 | A read returns the next bytes of the stream, an end or a stall, and never passes the deadline |
| HttpReader.HeaderEndStable | crates/mh-cli/src/ui.rs:265-268 | The first empty line found in a prefix is the first of the stream |
| HttpReader.ReadHeaders | crates/mh-cli/src/ui.rs:298-315 | The header loop computes the map of the lines, refusing a second host or content length and any transfer encoding |
| HttpReader.KeysDeclared | crates/mh-cli/src/ui.rs:298-315 | The map's keys are exactly the names some line declares |
| HttpReader.LengthDeclaredOnce | crates/mh-cli/src/ui.rs:298-315 | In an accepted head the body is framed by at most one content length and nothing else |
| HttpHead.HeadRoundTrip | crates/mh-cli/src/ui.rs:280-325 | A head written with any request line and any fields the reader allows is read back as that: words, last value of every name, declared length |
| HttpReader.ReadHeader | crates/mh-cli/src/ui.rs:263-279 | The header loop stops at the first empty line or within the byte bound, and gives up only if no request was ever going to arrive |
| HttpReader.ReadBody | crates/mh-cli/src/ui.rs:326-338 | The body loop stops with at least the wanted bytes, all in stream order, or within the byte bound, and gives up only if no request was ever going to arrive |
| HttpReader.RequestStable | crates/mh-cli/src/ui.rs:259-352 | Bytes behind a complete request do not change it |
| HttpReader.ReadHttpRequestUntil | crates/mh-cli/src/ui.rs:259-352 | A request is accepted exactly when a complete one arrives within the bounds and before the deadline; it is the one the byte stream holds, whatever the chunks; every refusal has a reason; bytes read and time are bounded |
| HttpReader.PromptRequestArrives | crates/mh-cli/src/ui.rs:259-352 | A complete request in time is within the bounds however it is cut, if head and body each leave room for the rest of a chunk |
| Broker.Script.HandleMessage | crates/mh-cli/src/ui_ext/shell.rs:179-200 | A message is ignored, refused as busy, or accepted with its frame's count and its pending entry |
| Broker.Script.HandleAnswer | crates/mh-cli/src/ui_ext/shell.rs:206-214 | A matching answer finishes its request; any other rejects the chain |
| Broker.Script.HandleCatch | crates/mh-cli/src/ui_ext/shell.rs:215-217 | A rejected chain finishes its request only if it is still pending |
| Broker.Script.Finish | crates/mh-cli/src/ui_ext/shell.rs:174-178 | Finishing removes the entry, takes one from the count and posts one result |
| Broker.CountIsPending | crates/mh-cli/src/ui_ext/shell.rs:174-220 | In every event order a frame's count is the number of its pending requests and at most 8 |
| Broker.ClampNeverNeeded | crates/mh-cli/src/ui_ext/shell.rs:174-178 | Whenever `finish` runs the count is at least one, so neither guard around the subtraction is needed |
| Broker.ExactlyOneResult | crates/mh-cli/src/ui_ext/shell.rs:174-220 | A settled request has had exactly one result, to its own frame and id, unless posting it threw; an unsettled one none |
| Broker.SettledMeansAnswered | crates/mh-cli/src/ui_ext/shell.rs:174-220 | If posting never throws, every settled request has had exactly one result |
| Broker.AllSettledAllZero | crates/mh-cli/src/ui_ext/shell.rs:174-220 | When every fetch has settled nothing is pending and every count is 0 |
| FetchPolicy.CoversIsLabelSuffix | crates/mh-fetch/src/lib.rs:473-483 | The string test for a domain equals "its labels are the last labels of the host" |
| FetchPolicy.DomainAllowedExactly | crates/mh-fetch/src/lib.rs:473-483 | A host is allowed exactly when some non-empty allowed domain is a label suffix of it, after normalisation |
| FetchPolicy.CaseNeverMatters | crates/mh-fetch/src/lib.rs:473-483 | Letter case never matters, in the host or in the allowed domains |
| FetchPolicy.Forbidden4Exactly | crates/mh-fetch/src/lib.rs:499-545 | The octet tests forbid exactly the addresses of nine listed blocks |
| FetchPolicy.MappingChangesNothing | crates/mh-fetch/src/lib.rs:512-534 | An IPv4 address and its IPv6-mapped form get the same verdict, also under the loopback exception |
| Fetch.Prepare | crates/mh-fetch/src/lib.rs:306-325 | A round up to the send gives a permitted request with resolved addresses and the remaining time, or an error with its cause |
| Fetch.Exchange | crates/mh-fetch/src/lib.rs:326-357 | The rest of a round is judged as the code does: error, too large, final, or one more hop |
| Fetch.FetchWithAddressPolicy | crates/mh-fetch/src/lib.rs:294-364 | For every resolver and transport: at most the redirect limit plus one requests, each permitted and each where the last answer pointed; a success is the answer to the last; every error has a cause; punctual seams keep the total timeout |
| Manifests.EnvironmentDeclarationErrors | crates/mh-host/src/lib.rs:1542-1574 | The loop lists, name by name, what is wrong with each inherited name |
| Manifests.EnvironmentErrorsExactly | crates/mh-host/src/lib.rs:1542-1574 | The list is empty exactly when names are valid and no two declarations name one variable, letter case aside |
| Manifests.LoadFile | crates/mh-host/src/lib.rs:124-165 | A file loads exactly when it is sound by itself, as the plugin with its id, arguments and merged environment |
| Manifests.DiscoverPlugins | crates/mh-host/src/lib.rs:115-191 | The strict loader succeeds exactly when every manifest is sound and ids are distinct, and lists them in order |
| Manifests.InspectPluginManifests | crates/mh-host/src/lib.rs:199-320 | The inspector shows every manifest with its own problems and, by a counting pass, the duplicate ids |
| Manifests.LoadersAgree | crates/mh-host/src/lib.rs:115-320 | The strict loader accepts a directory exactly when the inspector marks every manifest valid: detecting duplicates on insertion and by counting come to the same |
| Manifests.ReadBoth | crates/mh-host/src/lib.rs:115-320 | On one snapshot both readers agree on success, and then list the same ids in the same order |

## Left out

- Process spawning, signals, sessions and pipes: the child is an emitter of bytes with an exit status; nothing is claimed about its descendants.
- Blocking writes to the plugin's input: a send succeeds or fails in one step, with any I/O error or an oversized frame.
- Answers to state queries and fetches: parameters are checked as in the code, but the outcome of serving an accepted request is an arbitrary "went on", failure or, past the deadline, timeout.
- Time spent serving a request: it passes between the steps of `HostRun`; in the loops of `HostLoop` serving takes none.
- SQLite itself: tables, the unique key, AUTOINCREMENT and the transaction are data; each statement is atomic and may fail.
- Floating-point numbers and number formatting: a JSON number is its printed text (section 6 of RFC 8259), and how a reader reprints it is an arbitrary function.
- Collisions of the 64-bit hash: equal content has equal fingerprints; different content may share one.
- Lone surrogates in Python strings: texts are sequences of Unicode scalar values.
- URL parsing and joining, base64, header syntax, DNS and TLS: arbitrary functions around the redirect loop.
- Time in the redirect loop passes only in the resolver and the transport.
- Replacement of invalid UTF-8 in an HTTP head: an arbitrary function from bytes to text.
- The record validators (dates, URIs): a predicate of the record, and for ingestion an arbitrary one.
- Poisoned mutexes and panicking workers in the UI: a worker that panics never cleans up, which the model does not show.
- The browser script's message validators: whether a message passes them is a flag of the message.
- Waiting for a host answer inside the SDK, its cancel watcher and its thread safety: requests to the host are messages without a waiting party.
- Sorting the plugin directory and resolving working directories: both readers are given one snapshot in path order.
- Redaction in the inspector's view, HTML, content security policies, routing and option parsing: presentation.
- HostSuccess.AcceptedConversationSucceeds: gives one successful schedule; a slow host or a full queue makes other schedules of the same conversation fail, as in the code.
