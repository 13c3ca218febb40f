# Verified models of the HAI client libraries

The HAI SDK has thin wrappers around a native library in three languages, and a few places where the
wrapper itself carries a protocol, a parser or arithmetic that has to be right. Those places are modelled
here in Dafny, and the properties they exist for are proved.

| File | What it models |
|---|---|
| `Journal.dfy` | the benchmark mediator's write-ahead journal (Python): crash safety of an expensive call |
| `Text.dfy`, `Sse.dfy` | the incremental event-stream parser (Node) and the batch parser (Python), WHATWG HTML section 9.2.6 |
| `Base64.dfy` | base64, base64url and 76-column folding, RFC 4648 sections 4 and 5, RFC 2045 section 6.8 |
| `Mime.dfy`, `MimeReader.dfy`, `MimeRoundTrip.dfy` | the mail builders (Go, Node), a reader after RFC 5322 and RFC 2046, and the round trip |
| `VerifyLink.dfy` | verification links (Go, Node) |
| `StreamLifecycle.dfy` | the stream reader goroutine, its consumer and its closers (Go) |
| `HandleGuard.dfy` | the guarded native handle (Go) |
| `WsQueue.dfy` | the WebSocket event queue (Node) |
| `KeyCache.dfy` | the agent key cache under concurrent fetches (Go) |
| `ServerKeys.dfy` | the cache of server signing keys (Node) |
| `Reconnect.dfy` | the reconnect loops (Node, Python, Go) |
| `Wrappers.dfy` | `Option` and `Result` |

`dafny verify dfyconfig.toml` checks everything.

## How to read it

Sequential code that changes state is a class or a method with loops, proved against a specification.
Where several goroutines, processes or callbacks interleave, the model is a transition system: a `State`
value, a `Step` (or `Next`) for each atomic stretch of code, and a `Run` over any sequence of steps. A
theorem about `Run(actions)` is therefore about every interleaving, for any number of threads. Where the
code of one actor runs uninterrupted between two suspensions (`WsStream`, `Transport`), its methods are proved
to be steps of that system. `Mediator` keeps a trace of the states it goes through, one for each commit, provider
call and submission, and every method is proved to extend that trace to a longer run.

Facts about the code that the proofs brought out, each with the exact condition:

* `handle_job` keeps its promise even if several workers share one journal file: the loser of a race for
  the row gets the primary-key error before it reaches the provider.
* For one block Node's and Python's event-stream parsers report the same exactly when the block has no `data:`
  line, or the first one and the last `event:` line are not empty and, without an `event:` line, the data is not
  an object with a type of its own (`Sse.NodeAndPythonAgree`). `Sse.EmptyDataDiffers`, `Sse.EmptyEventDiffers`
  and `Sse.TypeInDataDiffers` are blocks on which they differ.
* A multipart message is read back if and only if no line of the body starts with the delimiter
  (`MimeRoundTrip.MixedRoundTrip`).
* The advertised limit of 1515 bytes for a verification link is one too many; with the default base no
  document of 1515 bytes is accepted (`VerifyLink.DefaultLimit`). An explicitly empty base means the default
  in Go and an origin-less link in Node (`VerifyLink.GoAndNodeAgree`).
* The WebSocket generator can end with messages unread, exactly when it is woken to find the stream closed
  (`WsQueue.EndsWithUnreadMessagesIff`).
* Two remote key lookups can share a cache key, exactly when a ':' occurs in an id or version
  (`KeyCache.SharedKeyIff`); one is then answered with the key of the other.
* A failed refill of the server keys leaves a partly filled map under the previous origin and expiry; when
  that map is served is characterised by `ServerKeys.FailedRefillIsServedIff`, every other answer is validated
  (`ServerKeys.HitsAreValidated`), and what is left over can hold a key of another origin
  (`ServerKeys.KeysFromAnotherOrigin`). The map is a plain JavaScript object, so a signer id such as
  `constructor` is always reported as a conflict (`ServerKeys.RefillSucceedsIff`).
* During a backoff pause the handle of a session that failed stays open, exactly unless the connect itself
  failed; it is closed in `finally`, after the pause (`Reconnect.PauseKeepsHandle`).

## Model

| member | source | states |
|---|---|---|
| `Journal.Mediator.Open` | python/examples/benchmark_mediator.py:21-32 | a process may start on the empty journal or on whatever earlier workers left, wherever they died |
| `Journal.Mediator.InsertRow` | python/examples/benchmark_mediator.py:57-61 | commits the bare row, and nothing else |
| `Journal.Mediator.CallProvider` | python/examples/benchmark_mediator.py:62-63 | the provider is called only with the bare row of that job in the table |
| `Journal.Mediator.SaveResponse` | python/examples/benchmark_mediator.py:82-85 | commits the reply, and nothing else |
| `Journal.Mediator.SubmitResponse` | python/examples/benchmark_mediator.py:86-87 | only the reply in the table is ever submitted |
| `Journal.Mediator.MarkSubmitted` | python/examples/benchmark_mediator.py:88-89 | commits `submitted=1`, only after a submission that was accepted |
| `Journal.Mediator.HandleJob` | python/examples/benchmark_mediator.py:35-89 | for each kind of event the outcome, the new table and the outgoing calls, down to every field of the submitted response: nothing happens without the right contract and an identity, a known job is only replayed, and only for its own digest, and a new one is bought, stored and submitted; the states in between, one for each commit, call and submission, extend the worker's run of the crash-prone journal machine |
| `Journal.Mediator.Buy` | python/examples/benchmark_mediator.py:56-85 | in this order: the bare row is committed, the provider is called, the reply is committed; a failing or mismatching completion leaves the row without a response |
| `Journal.Mediator.SubmitOne` | python/examples/benchmark_mediator.py:86-89 | the journaled reply is submitted first and the row marked after it, and only if the submission was accepted |
| `Journal.Mediator.FetchPending` | python/examples/benchmark_mediator.py:94-96 | exactly the rows with a response that are not submitted, each once, in some order |
| `Journal.Mediator.ResubmitPending` | python/examples/benchmark_mediator.py:92-100 | nothing but journaled pending replies goes out, each at most once, with the answer of the server, and never a provider call; each one that is taken is marked, the first one that is not ends it, and if none is refused every row with a response ends up submitted; rows without a response are untouched; the states in between extend the run |
| `Journal.Mediator.Serve` | python/examples/benchmark_mediator.py:160-168 | each event is handled as it should be, up to the first failure; whatever arrives, on whatever journal the worker was started: its states are a run, no job id is bought twice, nothing goes out before it is committed, nothing in the journal is undone |
| `Journal.StepKeeps` | python/examples/benchmark_mediator.py:45-100 | every step of any worker, a crash included, keeps the journal invariant and undoes nothing |
| `Journal.AtMostOneCallPerJob` | python/examples/benchmark_mediator.py:45-63 | over every run, with any number of workers, redeliveries and crashes, the provider is called at most once per job id |
| `Journal.WriteAhead` | python/examples/benchmark_mediator.py:57-89 | over every run, in the state a provider call starts from the bare row is in the table, and in the state a submission starts from its very response is |
| `Journal.RaceIsLost` | python/examples/benchmark_mediator.py:57-61 | a worker whose row another one has inserted in the meantime fails there, before any call |
| `Journal.ExistingRowsAreNeverBought` | python/examples/benchmark_mediator.py:48-55 | once a row exists and its inserter is not on the way to the provider, that job is never bought again, response or not |
| `Journal.OneResponsePerJob` | python/examples/benchmark_mediator.py:69-100 | all submissions for a job carry one response, the journaled one, with the row's digest, bought by exactly one call |
| `Journal.SubmittedMeansAccepted` | python/examples/benchmark_mediator.py:86-89 | `submitted=1` implies a stored response that the server has accepted |
| `Journal.NothingIsForgotten` | python/examples/benchmark_mediator.py:57-100 | rows never vanish, digests and stored responses never change, `submitted` never falls back, what went out stays on record |
| `Sse.ParseSseStream` | node/src/sse.ts:18-62 | the events depend only on the concatenation of the chunks, wherever the text is cut |
| `Sse.BlankLineSeparates` | node/src/sse.ts:42-49 | after a blank line parsing starts afresh: it distributes over concatenation |
| `Sse.ParseIsBlockwise` | node/src/sse.ts:35-58 | the accumulating parser reports for each block between blank lines what the last `event:` and `id:` and the joined `data:` values of that block say |
| `Sse.BlockYields` | node/src/sse.ts:64-86 | the event of one block, field by field: none without data; type from the last event line, else from the data, else "message"; the data parsed exactly if it is JSON; the last id; the joined data as raw text |
| `Sse.LastLineCounts` | node/src/sse.ts:35-41 | the value of a field is the trimmed rest of the last line with its prefix |
| `Sse.UnnamedEvent` | node/src/sse.ts:35-49 | the event of a text with an id line, two data lines and no event line, spelled out |
| `Text.TrimIs` | node/src/sse.ts:36 | trimming takes all white space at both ends and nothing else |
| `Sse.CrlfChangesNothing` | node/src/sse.ts:35-49 | turning LF into CRLF changes no event, unless a line is a lone CR already |
| `Sse.ParseSseLines` | python/src/haiai/_sse.py:8-26 | reports the last event value, or "message", with all data values joined, and nothing without a data line |
| `Sse.NodeAndPythonAgree` | python/src/haiai/_sse.py:16-26 | for the lines of one block, what Node yields and what Python returns is the same exactly when there is no data line, or the first data line and the last event line are not empty and, without an event line, the data is not an object naming a type other than "message" |
| `Sse.EmptyDataDiffers` | node/src/sse.ts:44-47 | an empty data line is an event for Python and none for Node |
| `Sse.EmptyEventDiffers` | node/src/sse.ts:74-78 | an empty event line is type "" for Python and "message" for Node |
| `Sse.TypeInDataDiffers` | node/src/sse.ts:74-78 | without an event line Node takes the type from the data, Python does not |
| `Sse.PrintThenParse` | node/src/sse.ts:35-52 | a printed sequence of events with trimmed single-line fields and a non-empty first data line is parsed back in order |
| `Sse.PrintThenParseLines` | python/src/haiai/_sse.py:16-26 | the printed lines of such an event give its type and its joined data in Python too, and the same in Node |
| `Base64.DecodeEncode` | go/verify.go:36 | decoding an unpadded encoding, in either alphabet, returns the bytes |
| `Base64.EncodeLength` | go/verify.go:36 | n bytes take ceil(4n/3) characters |
| `Base64.CharIsTable` | go/verify.go:36 | the characters are those of the tables of RFC 4648 |
| `Base64.GroupIsNumber` | go/mime.go:88 | four characters are the number that three bytes are, most significant first |
| `Base64.LastGroupIsNumber` | go/mime.go:88 | a last group that is not full is padded with zero bits |
| `Base64.EncodeStdText` | go/mime.go:88 | the padded form has 4*ceil(n/3) characters, no line break, and its padding comes off cleanly |
| `Base64.DecodeStdEncodeStd` | go/mime.go:82-88 | the padded form decodes to its data even with line breaks anywhere in it |
| `Base64.DecodeStdIff` | go/mime.go:82-86 | exactly whole quanta of the alphabet with at most two padding characters at the end are accepted, line breaks aside |
| `Base64.FoldedLinesStandAlone` | go/mime.go:97-105 | cutting the encoding every 76 characters gives exactly the encodings of the consecutive 57-byte pieces |
| `Base64.SlicesFill` | go/mime.go:97-105 | all lines but the last are 76 characters, the last is not empty |
| `Mime.SanitizeCleans` | go/mime.go:14-19 | no CR, LF or quote is left, and a value without them is unchanged |
| `Mime.SanitizersAgree` | node/src/mime.ts:37-39 | Node's one pass and Go's three replacements give the same value |
| `Mime.SanitizeKeepsTheRest` | go/mime.go:14-19 | character by character, CR, LF and quotes go and everything else stays where it is |
| `Mime.FilesAre` | go/mime.go:79-91 | each attachment arrives with its own sanitised type and name and its bytes, or else what its base64 text stands for; the first unreadable one is the error, by its own name |
| `Mime.WriteFolded` | go/mime.go:97-105 | the slicing loop writes exactly the 76-column lines |
| `Mime.WriteAttachment` | go/mime.go:79-105 | an attachment whose base64 text does not decode is an error; otherwise its whole section is appended |
| `Mime.BuildRFC5322Email` | go/mime.go:25-113 | the message is its header lines, an empty line and its body lines, each with CRLF; the first undecodable attachment is the error |
| `Mime.BuildNodeEmail` | node/src/mime.ts:51-131 | given the same id, date and boundary Node builds what Go builds, and never fails |
| `MimeRoundTrip.HeaderBlockIsIntact` | go/mime.go:26-51 | whatever the fields and the body hold, the first CRLFCRLF is the builder's own and the lines before it are the intended headers in order; without attachments the rest is the body and CRLF |
| `MimeRoundTrip.SimpleRoundTrip` | go/mime.go:34-51 | a message without attachments is read back with its headers and text |
| `MimeRoundTrip.HeadersAreRead` | go/mime.go:36-60 | what a reader finds under each header name: sender, recipient, subject, date, id, the message replied to if there is one, version, type and encoding, each from its own field |
| `MimeRoundTrip.HeaderNamesAreRead` | go/mime.go:36-60 | the names of the headers, in order, and no others |
| `MimeRoundTrip.FileIsRead` | go/mime.go:92-105 | an attachment section is read back as its type, name and bytes |
| `MimeRoundTrip.MixedRoundTrip` | go/mime.go:52-110 | a multipart message is read back exactly, with body, sanitised names and types and bytes in order, if and only if no body line starts with "--" and the boundary |
| `MimeRoundTrip.PartsAre` | go/mime.go:66-105 | the parts of a multipart message carry the right type, encoding and file name headers, in the order of the attachments |
| `VerifyLink.NodeEncodesLikeGo` | node/src/verify.ts:27-32 | rewriting standard base64 gives the base64url text Go produces |
| `VerifyLink.LinkDecodes` | go/verify.go:30-46 | every link decodes back to its document, whatever the base is |
| `VerifyLink.LinkIs` | go/verify.go:30-45 | a link is the base without its last slashes, "/jacs/verify?s=" and the encoded document |
| `VerifyLink.TrimSlashesIs` | go/verify.go:34 | all slashes at the end of the base go, and nothing else |
| `VerifyLink.AcceptedIff` | go/verify.go:38-39 | a document is accepted exactly when base + 15 + ceil(4n/3) is at most 2048 |
| `VerifyLink.DefaultLimit` | go/verify.go:10-16 | with the default base exactly the documents up to 1514 bytes are accepted, one less than advertised |
| `VerifyLink.GoAndNodeAgree` | node/src/verify.ts:75-95 | both languages give the same link or refusal, exactly unless the base is explicitly empty and the document at most 1524 bytes |
| `VerifyLink.TrailingSlashesDoNotMatter` | go/verify.go:34 | any number of slashes behind the base leads to the same link |
| `StreamLifecycle.HandleClosedOnce` | go/transport_shared.go:50-101 | the foreign handle is closed at most once, and by the time `done` closes; nothing is sent on a closed channel, no channel closes twice, and `close` returns only behind `done` |
| `StreamLifecycle.AtMostOneLateCall` | go/transport_shared.go:58-65 | at most one `nextEvent` begins after cancellation |
| `StreamLifecycle.EventsConserved` | go/transport_shared.go:65-91 | the buffer holds at most 16; consumed and buffered events are a subsequence of the received ones; received = consumed + buffered + dropped + malformed + at most one in flight or abandoned at cancellation |
| `StreamLifecycle.ReceivedIsDecoded` | go/transport_shared.go:65-78 | received is exactly what the calls returned and the decoder accepted, in order |
| `StreamLifecycle.DroppedOnlyWhenFull` | go/transport_shared.go:80-91 | an event is dropped only when 16 are waiting; with room and no cancellation it is put behind those that wait |
| `StreamLifecycle.NothingIsLost` | go/transport_shared.go:34-91 | over every run without cancellation in which the consumer is never more than 16 events behind, it gets everything, in order |
| `StreamLifecycle.ReaderLeavesIff` | go/transport_shared.go:58-77 | the reader leaves its loop for a failed call, the end of the stream or the cancelled context, and for good |
| `StreamLifecycle.ReaderGoesOn` | go/transport_shared.go:50-92 | the reader always has a next step |
| `StreamLifecycle.OthersGoOn` | go/transport_shared.go:95-101 | each `close` cancels, passes the once and waits for `done`, step by step; the consumer gets the oldest event |
| `StreamLifecycle.NoDeadlock` | go/transport_shared.go:44-101 | while some `close` has not returned, the reader or a closer can move |
| `StreamLifecycle.CancelledReaderWindsDown` | go/transport_shared.go:58-92 | after cancellation each step of the reader brings it closer to its end |
| `HandleGuard.NoUseAfterFree` | go/ffi/ffi.go:307-327 | a thread inside a foreign call holds a live handle, nobody frees it meanwhile, and it is freed at most once |
| `HandleGuard.SettersAreAlone` | go/ffi/ffi.go:1313-1334 | a method under the write lock has the foreign client to itself |
| `HandleGuard.ClosedForGood` | go/ffi/ffi.go:307-343 | once any `Close` has returned the handle is gone and every method called later fails |
| `HandleGuard.RefusedOnlyWhenClosed` | go/ffi/ffi.go:322-327 | the check fails exactly when the flag is stored or the handle gone, and never before some `Close` has begun |
| `HandleGuard.CallAlone` | go/ffi/ffi.go:335-343 | a method of an open client reaches the foreign code and returns what that returns; of a closed one it fails without reaching it; the lock is given back |
| `HandleGuard.CloseAlone` | go/ffi/ffi.go:307-318 | the first `Close` frees the handle and leaves the client closed, any other just returns |
| `HandleGuard.NoDeadlock` | go/ffi/ffi.go:307-343 | methods and `Close` never block each other for good, though a waiting writer keeps new readers out |
| `HandleGuard.WaitingWriterIsNext` | go/ffi/ffi.go:307-318 | once a writer waits for the lock, `Close` among them, no reader and no other writer gets in before it |
| `WsQueue.WsStream.OnMessage` | node/src/ws.ts:119-149 | the message is queued and a sleeping generator is woken |
| `WsQueue.WsStream.OnError` | node/src/ws.ts:160-168 | the error closes the stream and wakes the generator |
| `WsQueue.WsStream.Continue` | node/src/ws.ts:181-195 | from each suspension, one stretch of the generator: yield the oldest message, end, or sleep |
| `WsQueue.NoLostWakeup` | node/src/ws.ts:113-198 | a sleeping generator has an empty queue and an open stream; what was yielded is a prefix of what was received, without gaps or duplicates |
| `WsQueue.EverythingIsReceived` | node/src/ws.ts:119-168 | every message, the last error and the close are kept, and nothing else |
| `WsQueue.EachStretch` | node/src/ws.ts:142-198 | where each callback and each stretch of the generator leads: woken, yielding the oldest message, asleep, or ended, throwing the last error |
| `WsQueue.AlwaysGoesOn` | node/src/ws.ts:180-190 | a generator that is asked at a `yield`, or has been woken, goes on |
| `WsQueue.EndsWithUnreadMessagesIff` | node/src/ws.ts:182-190 | the generator ends with unread messages exactly when woken to a closed stream with a non-empty queue |
| `WsQueue.MessageLostAtClose` | node/src/ws.ts:182-186 | such a run: a message and the close arrive while it sleeps |
| `KeyCache.Cache.Get` | go/keycache.go:29-44 | a hit exactly for a present entry younger than five minutes; an expired one is removed |
| `KeyCache.Cache.Fetch` | go/client.go:1415-1430 | the backend is asked exactly on a miss, and only its successful reply is stored |
| `KeyCache.NamespacesDisjoint` | go/client.go:1415-1548 | keys of different kinds of lookup never meet; within a kind only remote lookups can |
| `KeyCache.SharedKeyIff` | go/client.go:1416 | a lookup shares its key with another exactly when it is a remote one with ':' in its id or version |
| `KeyCache.PlainIdsNeverMeet` | go/client.go:1416 | agent ids without ':' are enough to keep all keys apart |
| `KeyCache.CacheRefinesBackend` | go/keycache.go:29-51 | under any interleaving of fetches, clears, evictions and the clock, a cached answer was stored under the same key, at a time less than five minutes before its check, as the backend's reply to the lookup that stored it, which is the very same lookup unless it is ambiguous |
| `KeyCache.BackendAnswersAreReplies` | go/client.go:1420-1429 | an uncached answer is the backend's reply to that lookup |
| `KeyCache.FetchAlone` | go/client.go:1415-1430 | a fetch nobody interferes with: an entry younger than five minutes is the answer, otherwise the backend is asked and its reply stored |
| `KeyCache.ClearForgets` | go/keycache.go:53-58 | after a clear every lookup goes to the backend |
| `KeyCache.AmbiguousLookupIsAnsweredWrongly` | go/client.go:1416-1419 | two lookups with one key: the second gets the first one's reply without a question |
| `ServerKeys.KeyRing.CheckCache` | node/src/signing.ts:102-108 | a hit needs the same origin, an expiry ahead and a non-empty map |
| `ServerKeys.KeyRing.Refill` | node/src/signing.ts:125-177 | the map, origin and expiry after the loop, also when it throws half way |
| `ServerKeys.RefillSucceedsIff` | node/src/signing.ts:126-177 | success exactly when every active entry has a usable signer id and a non-blank key, no signer has two keys and some entry is active; the map then says exactly what the active entries say |
| `ServerKeys.SignerIs` | node/src/signing.ts:128-135 | an entry is filed under its trimmed signer id, or else under its key id if that is its agent id with a version, or else under none |
| `ServerKeys.FirstErrorIs` | node/src/signing.ts:136-174 | which entry makes a refill fail, and with which error |
| `ServerKeys.OrderDoesNotMatter` | node/src/signing.ts:126-165 | neither success nor the map depends on order or repetition in the reply |
| `ServerKeys.HitsAreValidated` | node/src/signing.ts:100-178 | under any interleaving of calls, replies and the clock, whatever a call returns says exactly what the active entries of one flawless reply from the same origin say, received less than an hour before, except for a hit on what a failed refill left |
| `ServerKeys.OtherHitsAreLeftOver` | node/src/signing.ts:125-165 | in that case it is the map of a failed refill, served under the origin and within the hour of one that succeeded |
| `ServerKeys.ServedForAnHour` | node/src/signing.ts:100-108 | after a refill every call for that origin is answered from the cache for one hour, and no other call is |
| `ServerKeys.OtherwiseNothingIsServed` | node/src/signing.ts:117-184 | a lost or refused reply answers nobody, and after a clear every call goes to the server |
| `ServerKeys.FailedRefillIsServedIff` | node/src/signing.ts:125-165 | what a failed refill leaves is served exactly while the old expiry is ahead and something was filled in, and then under the old origin |
| `ServerKeys.SomethingFilledIff` | node/src/signing.ts:126-165 | something was filled in exactly when the first active entry is usable |
| `ServerKeys.KeysFromAnotherOrigin` | node/src/signing.ts:102-165 | so a key published by one origin can be served for another |
| `Reconnect.Transport.Continue` | node/src/client.ts:998-1035 | every continuation of the generator is the corresponding step of the reconnect machine |
| `Reconnect.Transport.DoDisconnect` | node/src/client.ts:726-737 | `disconnect` only raises the flag and clears `connected`; it may fall at any suspension and closes no handle |
| `Reconnect.WhereItGoes` | node/src/client.ts:1004-1033 | as long as nobody disconnects: a session lasts until its stream ends or fails, an authentication failure ends it all, any other error is followed by a pause unless it is the (max+1)-th in a row, and behind every pause and ended stream comes the next connect |
| `Reconnect.DisconnectEndsIt` | node/src/client.ts:1004-1012 | once the flag is up it stays up, nothing is connected or fetched any more, and every step brings the generator closer to its end |
| `Reconnect.EndsSuspension` | node/src/client.ts:998-1035 | what may end each suspension |
| `Reconnect.HandlesAccounted` | node/src/client.ts:1004-1034 | opened minus closed handles is 0 or 1 at any moment, and when the generator has ended each opened handle has had exactly one close call, in order |
| `Reconnect.GivesUpAfterAllAttempts` | node/src/client.ts:1021-1026 | the loop gives up exactly at the (max+1)-th error in a row, having slept all the delays before |
| `Reconnect.PauseKeepsHandle` | node/src/client.ts:1021-1032 | a pause keeps the handle of the failed session open, exactly unless the connect failed, and closes it afterwards |
| `Reconnect.PythonGivesUpAfter` | python/src/haiai/async_client.py:1346-1362 | with Python's numbers that is the eleventh error, after 181 seconds |
| `Reconnect.OnBenchmarkJob` | go/transport_sse.go:97-125 | after k errors in a row the wait is min(2^k, 60) seconds, for every k, as long as Node's at that count; the first error after a clean end waits one second; the loop stops with the context |
| `Reconnect.GoWaitsLikeNode` | node/src/client.ts:1024 | doubling k times with a cut at 60 each time equals Node's closed form min(1000*2^k, 60000), for every k |
| `Reconnect.DelaysMonotone` | python/src/haiai/_retry.py:23-25 | the delays never shrink and never pass the cap |

## Left out

- JACS cryptography, canonical JSON, the native library behind the FFI: foreign calls return arbitrary results.
- JSON text: decoded values are taken as given, and storing a response as JSON and loading it again is taken to return it. A JSON `type` field that is not a string is not modelled.
- UTF-8: event streams and mail text are sequences of characters, so Go's and Node's mail builders are compared before both encode to UTF-8.
- Clocks, UUIDs and random boundaries: parameters; the generated ones are assumed to hold no CR, LF or quote (`Mime.Stamp.Valid`).
- SQLite itself: one commit is one atomic change of the table, and the primary key is enforced.
- The concurrent Go objects (`streamLifecycle`, `ffi.Client`) are transition systems over values, one atomic step of one goroutine at a time, instead of classes: a Dafny method cannot be interrupted.
- Node's `_wsConnection`: it holds a handle number, so the `close` that `disconnect` tries on it (node/src/client.ts:729-734) throws, is swallowed and closes nothing.
- Two `connect` generators of one client at the same time, sharing its flags.
- A Python task cancelled while it connects: the foreign connect may still complete and open a handle nobody closes; the model counts only handles that `connect` returned.
- How `wsEventStream` decodes a message and closes a socket that is still open when it ends.
- `ConnectSSEWithHandler` and the callers of the handle-using methods: one branch each.
- Node's `getCachedKey` and `setCachedKey`: the same expiry rule and key scheme as the Go cache, without the unlocked gap.
- `trustedServerKeyOrigin`: URL parsing; origins are taken as already accepted.
- Hosted verification links and base URLs outside ASCII.
- Python's MIME builder, which wraps a library that is not part of this model.
- Fairness: the deadlock theorems say that some step is enabled, not that a scheduler takes it.
