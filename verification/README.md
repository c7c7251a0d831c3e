# A verified model of protoc-gen-go-poseidon

protoc-gen-go-poseidon generates gRPC client code over the poseidon HTTP/2 client, and ships a
small runtime, `pgrpc`, that the generated code calls. This project models the parts of both
whose correctness is not visible in any single function, and proves what they promise.

`dafny verify dfyconfig.toml` checks the whole project.

## What is modelled

**One stream under concurrency** (`pgrpc/stream.go`, `pgrpc/streams.go`). `StreamProtocol.dfy` is a
step system: any number of threads with program counters, the read/write gate with a waiting
writer that stops new readers, the two compare-and-swap guards, the closed flag, the latched
terminal outcome, and poseidon as an environment that delivers any finite list of events, may
break the transport at any time and may fail any send. A codec may fail or panic. A step is one
access to shared state; marshalling writes the shared send scratch byte by byte.
`StreamSafety.dfy` has the invariant and what follows from it for whole runs, `StreamStatus.dfy`
when an ended stream may report OK, `StreamEnd.dfy` what it reports and why it ended, `StreamIterate.dfy`
what iterations never show, `StreamSingle.dfy` and `StreamMulti.dfy` that receives
under concurrency are those of the sequential objects, `StreamWire.dfy` the log of successful writes, and
`StreamProgress.dfy` the measure that makes Close finish. `StreamObject.dfy` holds the same types
as objects driven by one goroutine: what each operation returns for every peer and every consumer.

**Ownership of call configurations** (`pgrpc/callopts.go`). `GoSlices.dfy` is an explicit memory of
arrays with slices as regions of them; `CallConfig.dfy` runs any number of configurations over one
such memory, with ownership decided by comparing a stored address with one's own, and proves it
refines configurations that share nothing. `CallHistory.dfy` states when a run is within the documented
use by looking only at which operations were called, and `UnsafeRuns.dfy` has a run for each of the two
ways to leave it. `CallEffects.dfy` is what a caller sees of each operation. `CallOptions.dfy` is the option machinery on top:
`Configs` has the methods, `TwoFacesAgree` the result.

**The metadata builder** (`pgrpc/metadata.go`). `Metadata.dfy` is the builder on real arrays, with its
in-place compaction, name cache and base64 arena; `MetadataSpec.dfy` is the naive list it must agree
with, `MetadataEffects.dfy` what each operation does to the fields handed out; `Base64.dfy` defines the encoding of section 4 of RFC 4648 and a strict decoder.

**The generator's names** (`internal/gen`). `GenNames.dfy` is the nameset and checkService, `GenEmit.dfy` the
emitters with the declarations they write and the names they claim, `GenScope.dfy` that the two are the
same, `GenSelf.dfy` that one service never collides with itself, `GenRun.dfy` and `GenVerdict.dfy` the whole
run, `GenMeaning.dfy` what the call sites denote and `GenCalls.dfy` what the generated bodies call. `Comments.dfy` is the directive filter.

**Smaller companions.** `Errors.dfy` is the classification of error trees; `VtCodec.dfy`, `UnaryCall.dfy` and
`CallerGuard.dfy` are the buffer-reusing unary path, alone and under concurrent calls of every shape on one Caller.

## What was found

- A codec whose unmarshal error contains `io.EOF` makes a failed call report OK, because
  recvGatedInto latches that error and Status takes its clean-end branch. A codec that panics inside
  recvSingle does the same: its deferred finish sees a nil error while the panic unwinds.
  `StreamStatus.FalseOkIff` shows, over whole runs, that these two are the only ways to a false OK,
  and `StreamStatus.CodecEofGivesFalseOk` and `StreamStatus.CodecPanicGivesFalseOk` are runs from fresh streams.
- A marshal failure is documented as always fatal (`pgrpc/streams.go:333-335`), but the tolerance looks
  through the codec error: it is tolerated exactly when its cause contains conn.ErrStreamClosed
  (`Errors.MarshalFailureToleratedIff`). The model follows the code.
- A codec that panics in NewServerStream leaves the stream open: no deferred call aborts it.
  `StreamObject.Sessions` counts these leaks exactly; every other slot is given back.
- Reset on a configuration whose copy still shares its array is the documented exception of
  `pgrpc/callopts.go:45-50`; `GoSlices.ResetSafeIff` shows that it is exactly the exception.
- The documentation names Reset as the only exception. There is a second one: after an old copy has been
  assigned back over the configuration it was copied from, that configuration's next append may write
  cells which a later copy still shows (`UnsafeRuns.CopyBackBreaks`). `GoSlices.CopyBackSafeIff` gives the exact
  condition: the append is harmless if and only if it moves to a new array, or no other configuration
  shows one of the cells it writes. No other assignment is ever unsafe (`GoSlices.CopyRefines`).
- The comment above enterRecv asks its callers to hold the gate (`pgrpc/stream.go:103`); Recv and All take the
  guard first and the gate second. The model follows the code, and exclusion holds for both orders.
- That no service collides with itself needs no ASCII hypothesis: it holds for every service name
  whose first rune changes under lower-casing. Counting underscores separates `S_MClient` from
  `NewSClient`.

## Model

| member | source | states |
|---|---|---|
| `Errors.AsIsFirstStatus` | pgrpc/status.go:43-52 | errors.As on any tree finds the first status of its preorder |
| `Errors.IsIsMembership` | pgrpc/status.go:53-93 | errors.Is on any tree finds exactly the sentinels among its preorder nodes |
| `Errors.StatusOfFollowsTable` | pgrpc/status.go:43-94 | the first status in the flattened error is returned as it is, code and message; else the code is that of the first row of a precedence table whose sentinel occurs, else Unknown; no error is OK |
| `Errors.StatusOfOkOnlyFromStatus` | pgrpc/status.go:43-94 | a non-nil error classifies as OK if and only if the first status it carries is OK |
| `Errors.CodecErrorIsInternal` | pgrpc/errors.go:61-84 | a codec error classifies as Internal whatever its cause, and exactly the sentinels of the cause stay visible through it |
| `Errors.MarshalFailureToleratedIff` | pgrpc/stream.go:313-318 | the send tolerance forgives a marshal failure if and only if its cause contains conn.ErrStreamClosed |
| `StreamSafety.InvKept` | pgrpc/streams.go:58-154 | every step of every thread keeps the invariant over gate, guards, close flag and latch |
| `StreamSafety.ReceiveExclusion` | pgrpc/streams.go:58-70 | in every reachable state at most one thread is in poseidon's receive state, in the snapshot of finish, or in the winning Close's calls |
| `StreamSafety.NoReceiveAfterClose` | pgrpc/stream.go:233-253 | once the winning Close has returned, no continuation has a receive or Header call, and the outcome is latched |
| `StreamSafety.EndIsFinal` | pgrpc/stream.go:117-129 | once the stream has ended, error, status and trailers never change and no receive starts |
| `StreamSafety.OneOutcome` | pgrpc/streams.go:16-26 | the outcome is set exactly once, by finish or by Close, and every error an admitted receive returns is that outcome |
| `StreamSafety.QuiescentIsFree` | pgrpc/stream.go:104-113 | whatever failed or panicked, when all threads are back both guards and the gate are free |
| `StreamSafety.MessagesInOrder` | pgrpc/streams.go:58-70 | the messages handed to all receivers together are those of all events consumed, in order, except for the last event, which may be the end, undecodable, or one message too many; while the stream runs not even that is missing unless a receive is at work on it |
| `StreamSafety.HandedOneByOne` | pgrpc/stream.go:323-335 | with a codec that never panics, the i-th message handed out is the decoding of the i-th payload |
| `StreamStatus.StatusOkIffClean` | pgrpc/stream.go:142-155 | with a codec that does neither, an ended stream reports OK if and only if the call ended cleanly |
| `StreamEnd.StatusReports` | pgrpc/stream.go:142-155 | over whole runs an ended stream reports the status the peer declared, code and message; else OK for a nil error or one with io.EOF; else the first status in the error, or the code of its first listed sentinel |
| `StreamEnd.TrailerReports` | pgrpc/stream.go:117-129 | the latched trailers are the peer's if its end was consumed and not a broken transport, and none otherwise |
| `StreamEnd.EndedBecause` | pgrpc/stream.go:233-253 | over whole runs on a transport that holds, the latched error is ErrStreamClosed of a Close, the cancellation by one, or what the peer's events lead to |
| `StreamIterate.NeverYieldsEof` | pgrpc/streams.go:235-237 | in every interleaving, the error an iteration has yielded is the terminal one and contains no io.EOF |
| `StreamIterate.IterationCloses` | pgrpc/streams.go:247-258 | in every interleaving, a server iteration is over only when the stream is closed |
| `StreamStatus.StatusOkIff` | pgrpc/stream.go:142-155 | over whole runs and for every codec, an ended stream reports OK if and only if the call ended cleanly or the codec spoiled the last payload consumed |
| `StreamStatus.FalseOkIff` | pgrpc/streams.go:58-70 | over whole runs, a false OK is reported if and only if the last payload consumed failed to decode with io.EOF in the cause, or made the codec panic under recvSingle |
| `StreamStatus.CodecEofGivesFalseOk` | pgrpc/stream.go:323-335 | a run from a fresh stream in which a codec error wrapping io.EOF is reported as OK although the connection broke |
| `StreamStatus.CodecPanicGivesFalseOk` | pgrpc/streams.go:364-371 | a run from a fresh client stream in which a response that made the codec panic is reported as OK |
| `StreamIterate.BidiStaysOpen` | pgrpc/streams.go:453-480 | iterations on a bidirectional stream never close it, only Close does |
| `StreamSingle.SingleSuccess` | pgrpc/streams.go:364-395 | in every interleaving a recvSingle that returns nil has seen exactly one decodable message and a clean end, has handed out that message and no other, and it is the sequential answer |
| `StreamSingle.SingleAgreesWithObject` | pgrpc/streams.go:364-395 | in every interleaving without Close or transport failure, the latched error, status and trailers are those the sequential object latches for that peer |
| `StreamMulti.RecvTimes` | pgrpc/streams.go:58-70 | n receives on a new stream object return the messages and errors, and leave the latch, that the specification gives for n |
| `StreamMulti.MultiAgreesWithObject` | pgrpc/streams.go:58-70 | in every interleaving of any number of receivers, iterators and senders on a server or bidirectional stream that is not closed and not broken, whenever no receive is under way messages, errors and latch are those of some number of receives on one object |
| `StreamMulti.YieldsAreReceives` | pgrpc/streams.go:261-278 | once such a run has ended the stream, its messages and its error are the yields of one whole iteration on the object |
| `StreamWire.WireIsGuardOrder` | pgrpc/streams.go:92-154 | in every interleaving the wire is the whole encodings of the calls that wrote, in guard order, END_STREAM at most once and last, and results tell the truth |
| `StreamWire.NothingAfterEndStream` | pgrpc/streams.go:103-154 | nothing is written after END_STREAM in any continuation |
| `StreamWire.OnlyHolderWrites` | pgrpc/streams.go:92-134 | only the write of the send guard's holder changes the wire, so refused calls write nothing |
| `StreamWire.FramesAreEncodings` | pgrpc/streams.go:116-133 | every frame on the wire is what the codec encodes the message of an admitted call to, with END_STREAM if that call was the last |
| `StreamWire.ChecksAgree` | pgrpc/streams.go:109-148 | closed flag, half-close flag and codec answer a send in the step system as in the sequential object |
| `StreamWire.ReceivesAfterSend` | pgrpc/streams.go:331-355 | the final call of a client stream goes on to the receive if and only if its send went well or failed benignly |
| `StreamWire.SilentAfterClose` | pgrpc/streams.go:109-111 | once closed, and with no send past the check, nothing is ever written again |
| `StreamProgress.MeasureDecreases` | pgrpc/stream.go:233-253 | while a Close waits at the gate no action raises the measure and every action of a gate reader or of the closer lowers it |
| `StreamProgress.ReadersShrink` | pgrpc/stream.go:237-239 | no new reader passes a gate at which a Close waits |
| `StreamProgress.CloseWithinMeasure` | pgrpc/stream.go:233-253 | in every run, readers and closer take at most the measure's number of turns before Close has returned |
| `StreamProgress.CloseFinishes` | pgrpc/stream.go:221-253 | with receives on the derived context, that many steps of readers and closer alone bring Close to its return, whatever the send side does |
| `StreamProgress.SelfCloseNeverParks` | pgrpc/streams.go:238-279 | a thread that closes while it holds the receive guard finds no reader at the gate on server and bidirectional streams |
| `StreamProgress.PrivateContextParks` | pgrpc/stream.go:98-101 | a receive or a drain on a private context with nothing to return blocks the waiting Close: neither can move |
| `StreamObject.Stream.Finish` | pgrpc/stream.go:117-129 | the first outcome is latched with poseidon's status and trailers, later ones change nothing |
| `StreamObject.Stream.Close` | pgrpc/stream.go:233-253 | the first Close gives the slot back and latches; later ones do nothing |
| `StreamObject.Stream.RecvOne` | pgrpc/stream.go:323-335 | the next event of the peer, decoded |
| `StreamObject.Stream.CacheHeader` | pgrpc/streams.go:32-45 | the header is asked for until it has been had once, and a failure is no error |
| `StreamObject.Stream.RecvGatedInto` | pgrpc/streams.go:58-70 | an ended stream repeats its outcome without touching poseidon; a running one receives, latches a failure, and caches the header after a message |
| `StreamObject.Stream.RecvSingle` | pgrpc/streams.go:364-395 | the result is the verdict on the peer's whole event list, and that verdict is what is latched |
| `StreamObject.SingleAnswerIff` | pgrpc/streams.go:364-395 | a single-response call returns m if and only if the peer sent one payload that decodes to m and then a clean end |
| `StreamObject.SingleRejection` | pgrpc/streams.go:375-393 | every other event list gives Internal for no or several messages, the codec's failure, or the peer's own end, unchanged |
| `StreamObject.SingleAgreesWithStatus` | pgrpc/stream.go:142-155 | for an honest peer the reported OK coincides with a nil result, a codec panic being the one exception |
| `StreamObject.Stream.DoSend` | pgrpc/streams.go:103-134 | the outcome by flags, codec and transport, in that order; exactly one frame on success and none otherwise |
| `StreamObject.Stream.DoCloseSend` | pgrpc/streams.go:137-154 | idempotent half-close: one bare END_STREAM at most |
| `StreamObject.Stream.SendLastAndRecv` | pgrpc/streams.go:331-344 | the send's own error with nothing received; else ErrRecvInFlight, the latched outcome, or the verdict on the peer's events with its latch; the wire and the half-close are the send's |
| `StreamObject.Stream.CloseAndRecv` | pgrpc/streams.go:348-355 | the same after a half-close |
| `StreamObject.BenignSendIsSuccess` | pgrpc/stream.go:300-318 | a send error containing conn.ErrStreamClosed leads to the outcome of a successful send; any other is returned |
| `StreamObject.SendAnswers` | pgrpc/streams.go:103-134 | the closed flag answers before the half-close, that before the codec, and the codec before the transport, each with its own error |
| `StreamObject.HalfCloseAnswers` | pgrpc/streams.go:137-154 | a second half-close of an open stream is no error, any on a closed one is |
| `StreamObject.Stream.All` | pgrpc/streams.go:238-279 | once it has the guard it yields what the specification says for every peer and consumer, closes exactly once and releases the guard; a refused one yields one error and changes nothing |
| `StreamObject.Stream.AllBidi` | pgrpc/streams.go:458-480 | the same yields, but the stream stays open unless the body closed it |
| `StreamObject.YieldAt` | pgrpc/streams.go:261-278 | every yield is a message in the peer's order or an error that comes last and contains no io.EOF; nothing follows the consumer's stop |
| `StreamObject.YieldsAreComplete` | pgrpc/streams.go:261-278 | a consumer that goes on gets every message and then the end |
| `StreamObject.NewServerStream` | pgrpc/streams.go:163-196 | a stream if and only if every stage succeeds or fails benignly, else the first stage's error; the slot is held exactly with a stream, or when the request's codec panicked |
| `StreamObject.OpensIff` | pgrpc/streams.go:163-196 | the stages: configuration, stream, codec, write but for a tree with conn.ErrStreamClosed, and eager header |
| `StreamObject.YieldsAfterEnd` | pgrpc/streams.go:261-275 | an iteration over an ended stream yields nothing after a clean end and else the terminal error once |
| `StreamObject.Sessions` | pgrpc/stream.go:266-286 | over any number of opens and iterations, slots are conserved up to one per panicking request codec, and each consumer sees its own call |
| `GoSlices.AdoptRefines` | pgrpc/callopts.go:135-141 | adopt changes what no configuration shows and leaves the array its own |
| `GoSlices.AppendRefines` | pgrpc/callopts.go:126-129 | an append by the owner changes only what the owner shows |
| `GoSlices.CopyRefines` | pgrpc/callopts.go:45-67 | a value copy over any destination that the source does not name as owner refines a deep copy |
| `GoSlices.ResetSafeIff` | pgrpc/callopts.go:217-234 | Reset followed by an append leaves what all others show if and only if no other configuration still shows a cell of the array |
| `GoSlices.CopyBackSafeIff` | pgrpc/callopts.go:56-67 | after an old copy was assigned back over its origin, the next append of any n elements leaves everyone showing private values if and only if it moves to a new array or no other configuration shows one of the n cells |
| `GoSlices.GoAppend` | pgrpc/callopts.go:139-139 | append, cell by cell: in place within capacity, else into a new array |
| `GoSlices.GoClear` | pgrpc/callopts.go:219-219 | clear, cell by cell: exactly the visible cells become zero |
| `CallConfig.ExecRefines` | pgrpc/callopts.go:116-255 | one operation on configurations in shared memory is the same operation on private sequences |
| `CallConfig.RunRefines` | pgrpc/callopts.go:84-255 | over every run that keeps clear of the two unsafe situations in memory, on any number of configurations, metadata and options are those of a model that shares nothing, the codec is the last one set and the error the first failure since a configuration was made |
| `CallHistory.FreshIsFine` | pgrpc/callopts.go:45-67 | a copy to a variable that is not in use is never the unsafe kind |
| `CallHistory.FineIsAllowed` | pgrpc/callopts.go:45-67 | an operation that the history of calls permits is safe in memory |
| `CallHistory.DocumentedUseRefines` | pgrpc/callopts.go:84-255 | from a program without configurations, every sequence of operations in which Reset waits until all copies were modified, and no old copy is assigned back, can run and shows what a model shows in which nothing is shared; the condition is on the calls alone |
| `CallHistory.PlainUseIsDocumented` | pgrpc/callopts.go:45-50 | every sequence that copies only to variables not in use and never resets is such a sequence |
| `UnsafeRuns.CopyBackBreaks` | pgrpc/callopts.go:56-67 | a run from a program without configurations in which copying back lets an append show up in a third configuration |
| `UnsafeRuns.ResetBreaks` | pgrpc/callopts.go:45-50 | a run from a program without configurations in which Reset clears what a copy shows |
| `CallEffects.Effect` | pgrpc/callopts.go:116-255 | each operation, in what configurations show before and after: what it does to its own, and nothing to any other |
| `CallEffects.ResetForgets` | pgrpc/callopts.go:217-234 | after Reset a configuration shows nothing, its own cells are cleared, and codecs and errors of the others are unchanged |
| `CallEffects.SinceMade` | pgrpc/callopts.go:191-206 | over any run in which a configuration is not made anew, its error is the first failure reported and its codec the last one set |
| `CallEffects.SinceReset` | pgrpc/callopts.go:217-234 | after a Reset both are those of the operations since |
| `CallConfig.CallerMemoryNeverWritten` | pgrpc/callopts.go:116-141 | no run at all, Reset and copying back included, changes a visible or spare cell of an application's array |
| `CallConfig.AnyRunContinues` | pgrpc/callopts.go:116-255 | every operation whose configurations exist can be executed and keeps memory sound |
| `CallOptions.Configs.Copy` | pgrpc/client.go:150-158 | a plain assignment copies all fields, owner addresses included |
| `CallOptions.Configs.SetMetadata` | pgrpc/callopts.go:116-119 | installed by reference and recorded as borrowed |
| `CallOptions.Configs.AdoptMetadata` | pgrpc/callopts.go:135-141 | afterwards the array is this configuration's own |
| `CallOptions.Configs.AppendField` | pgrpc/callopts.go:126-129 | adopt, then append one field |
| `CallOptions.Configs.AppendHeader` | pgrpc/callopts.go:153-164 | one validated field, or the failure latched with the metadata kept |
| `CallOptions.Configs.Fail` | pgrpc/callopts.go:202-206 | the first failure is kept |
| `CallOptions.Configs.AppendPoseidonOptions` | pgrpc/callopts.go:177-187 | adopt once, then every option that is not nil |
| `CallOptions.Configs.SetCodec` | pgrpc/callopts.go:194-194 | only the codec of this configuration changes |
| `CallOptions.Configs.Reset` | pgrpc/callopts.go:217-234 | owned arrays cleared and kept, borrowed ones dropped, codec and error forgotten |
| `CallOptions.Configs.ApplyMetadata` | pgrpc/callopts.go:239-255 | by reference into an empty configuration that owns nothing, else adopt and append |
| `CallOptions.Configs.Apply` | pgrpc/callopts.go:89-97 | all options in order, nil ones skipped |
| `CallOptions.Configs.Resolve` | pgrpc/resolve.go:23-27 | defaults, then the call's options, on a zero configuration; its latched error is returned |
| `CallOptions.Configs.NewCallConfigThenApply` | pgrpc/client.go:154-158 | defaults on a local, a return by value, then the options on the copy |
| `CallOptions.ApplyRefines` | pgrpc/callopts.go:89-97 | applying a list in shared memory refines applying it to private sequences |
| `CallOptions.TwoFacesAgree` | pgrpc/client.go:142-158 | resolve and NewCallConfig followed by Apply show equal metadata, forwarded options, codec and error, for all default and per-call lists |
| `CallOptions.FoldMetadata` | pgrpc/callopts.go:153-164 | the metadata is the in-order fold of the valid entries, failing ones skipped |
| `CallOptions.FoldError` | pgrpc/callopts.go:200-206 | the latched error is the first failure |
| `CallOptions.FoldForwarded` | pgrpc/callopts.go:170-187 | the forwarded options in order, nil ones dropped |
| `CallOptions.FoldCodec` | pgrpc/callopts.go:194-194 | the last codec option wins |
| `CallOptions.CodecForPrefersCall` | pgrpc/client.go:135-140 | the codec of a call is the last its options name, else the last default, else the client's |
| `Base64.DecodesIff` | pgrpc/metadata.go:15-18 | a text decodes to given bytes if and only if it is their encoding |
| `Base64.DigitsAreAlphabet` | pgrpc/metadata.go:15-18 | the digits are the standard alphabet of RFC 4648, table 1 |
| `Base64.VectorOne` | pgrpc/metadata.go:15-18 | a test vector with two pads |
| `Base64.VectorTwo` | pgrpc/metadata.go:15-18 | a test vector with one pad |
| `Base64.VectorSix` | pgrpc/metadata.go:15-18 | a test vector of section 10 of RFC 4648 |
| `MetadataSpec.FoldMatchesName` | pgrpc/metadata.go:100-105 | the allocation-free suffix check agrees with the suffix of the interned name |
| `MetadataSpec.SetKeepsOthers` | pgrpc/metadata.go:123-136 | Set leaves the entries of other names as they were, in order |
| `MetadataSpec.SetPlacesOne` | pgrpc/metadata.go:123-136 | afterwards exactly one entry has the name: the new one, where the name first stood or at the end |
| `MetadataSpec.NaiveTyped` | pgrpc/metadata.go:107-121 | in every run an entry is binary exactly when its name ends in -bin |
| `MetadataSpec.RenderedDecodes` | pgrpc/metadata.go:233-272 | every binary value of every run decodes to the bytes given, every other value is those bytes |
| `MetadataEffects.SetReplaces` | pgrpc/metadata.go:172-227 | after any run, SetText, SetSensitive and SetBin leave exactly one field of the name, with the value given and IndexNever exactly for SetSensitive; the fields of other names keep order, value and indexing |
| `MetadataEffects.AddAppends` | pgrpc/metadata.go:183-231 | AddText and AddBin keep every field and append one |
| `MetadataEffects.RefusalKeeps` | pgrpc/metadata.go:205-245 | a key of the wrong kind or one poseidon refuses changes nothing, and gets the error of the first check that fails |
| `MetadataEffects.ResetEmpties` | pgrpc/metadata.go:264-290 | Reset leaves no field, and reading changes none |
| `MetadataEffects.BinaryNames` | pgrpc/metadata.go:14-14 | a name is binary if and only if it ends in -bin |
| `MetadataEffects.LowerIs` | pgrpc/metadata.go:75-89 | lower-casing replaces the upper-case letters one for one |
| `Metadata.Compact` | pgrpc/metadata.go:139-156 | the in-place loop leaves in the first slots the naive replacement of the list |
| `Metadata.Replace` | pgrpc/metadata.go:139-166 | the list with every entry of the name replaced by one, and the rest of the array cleared; or nothing, if the name is absent |
| `Metadata.Bind` | pgrpc/metadata.go:264-272 | every field becomes the rendering of its entry |
| `Metadata.Builder.Intern` | pgrpc/metadata.go:75-89 | the result never depends on the cache: lower-cased name, or poseidon's objection |
| `Metadata.Builder.Put` | pgrpc/metadata.go:137-169 | the naive Set or Add, keeping the builder's invariant |
| `Metadata.Builder.Text` | pgrpc/metadata.go:205-215 | the naive text entry or its error |
| `Metadata.Builder.Binary` | pgrpc/metadata.go:233-253 | the naive binary entry or its error, with every older span still reading its bytes |
| `Metadata.Builder.Fields` | pgrpc/metadata.go:264-272 | the builder's own array is handed out, and shows the rendering of the naive list |
| `Metadata.Builder.Reset` | pgrpc/metadata.go:283-290 | no entries, and every cell of the current field array and arena cleared |
| `Metadata.Builder.Do` | pgrpc/metadata.go:172-290 | every operation does what it does to the naive list and keeps the invariant: equal lengths, spans inside the arena, spans exactly under -bin names, slots past the end cleared |
| `Metadata.Build` | pgrpc/metadata.go:58-290 | over any run on a new builder, results and fields are those of the naive list |
| `GenNames.NameSet.Claim` | internal/gen/names.go:38-46 | the name is recorded, or the conflict with its first owner |
| `GenNames.NameSet.Err` | internal/gen/names.go:49-59 | an error if and only if a name was claimed twice or a service could not be lowered |
| `GenNames.OwnerIsFirst` | internal/gen/names.go:38-46 | the recorded owner of a name is the first to claim it |
| `GenNames.ConflictCount` | internal/gen/names.go:38-46 | conflicts are claims minus distinct names, plus the services that could not be lowered |
| `GenNames.ConflictNamesBoth` | internal/gen/names.go:38-46 | a reported conflict names the first claimant of the name and a later one |
| `GenNames.CheckService` | internal/gen/names.go:80-109 | no problem if and only if Go names are distinct and, with callers, none is Config; every duplicate reported is one |
| `GenNames.Unexport` | internal/gen/names.go:119-130 | a name of the same length that differs in its first rune only, or failure when lower-casing changes nothing |
| `GenEmit.FileGen.MethodConsts` | internal/gen/emit.go:66-79 | one constant per method, claimed and declared, or nothing when constants are off |
| `GenEmit.FileGen.StreamAliases` | internal/gen/emit.go:82-98 | one alias per streaming method |
| `GenEmit.FileGen.ClientInterface` | internal/gen/emit.go:101-123 | the interface with one method per rpc, when interfaces are on |
| `GenEmit.FileGen.ClientImpl` | internal/gen/emit.go:138-198 | implementation, constructors and one method per rpc with its call |
| `GenEmit.FileGen.Caller` | internal/gen/emit.go:237-299 | Caller, constructors, Config and one method per rpc with its call |
| `GenEmit.FileGen.EmitService` | internal/gen/emit.go:48-63 | everything of one service, or a recorded failure when its name cannot be lowered |
| `GenScope.DeclaredIsClaimed` | internal/gen/emit.go:48-299 | the package-scope identifiers a service declares are exactly those it claims, one claim per declaration |
| `GenSelf.AliasIsNotConstructor` | internal/gen/emit.go:87-87 | S_MClient is never NewSClient |
| `GenSelf.ServiceNeverCollides` | internal/gen/emit.go:66-287 | a service that passes checkService and unexport claims pairwise distinct identifiers |
| `GenRun.DirClaimed` | internal/gen/gen.go:89-125 | in each output directory, across files, what is claimed is what is declared |
| `GenRun.DirConflicts` | internal/gen/gen.go:17-43 | conflicts of a directory are its declarations minus its distinct identifiers |
| `GenRun.VerdictIff` | internal/gen/gen.go:63-78 | no nameset fails if and only if every service can be lowered and no directory declares an identifier twice |
| `GenRun.Generator.GenerateFile` | internal/gen/gen.go:90-125 | a file's claims go to the nameset of its directory, or the first service that fails checkService stops the run |
| `GenVerdict.Run` | internal/gen/gen.go:13-78 | success if and only if configuration and services are sound and each directory's identifiers are distinct; the output is then exactly the declarations of each directory; otherwise every failing directory is named |
| `GenVerdict.VerdictIgnoresOrder` | internal/gen/gen.go:45-78 | the verdict is the same for every order of the files |
| `GenMeaning.RefsDenotePaths` | internal/gen/emit.go:202-207 | after a successful run, a method's path reference denotes in its package the slash, the full descriptor name of the service, a slash and the descriptor name of the method |
| `GenMeaning.ConstsPreserveMeaning` | internal/gen/emit.go:202-348 | in every directory of a successful run, all bodies of both faces call the same entry points with the same paths as without constants |
| `GenMeaning.CheckIsMethodSets` | internal/gen/names.go:80-109 | checkService accepts a service if and only if no generated type of it has two methods of one name |
| `GenCalls.BodiesCall` | internal/gen/emit.go:210-234 | after a successful run every rpc has on both faces a body that calls the entry point for its streaming flags, with the path of its descriptor names |
| `GenCalls.PathsDiffer` | internal/gen/gen.go:214-216 | two methods whose names have no slash share a path only if both descriptor names agree |
| `GenCalls.AliasIffStreams` | internal/gen/emit.go:82-98 | a method has a stream alias if and only if one of its sides streams |
| `GenCalls.ConstsAt` | internal/gen/emit.go:66-79 | the i-th constant is named after the service and the i-th method |
| `GenCalls.OwnNames` | internal/gen/emit.go:101-289 | the names of interface, implementation, Caller and their constructors |
| `GenCalls.CallerHasConfig` | internal/gen/emit.go:292-292 | every Caller has the method that is reserved for it |
| `GenCalls.InterfaceIsImplemented` | internal/gen/emit.go:150-156 | the interface asks for exactly the methods the implementation has |
| `GenCalls.ImportsAreIgnored` | internal/gen/gen.go:45-57 | files that were only imported change neither verdict nor declarations |
| `GenCalls.SamePackageIff` | internal/gen/gen.go:92-98 | two files share a nameset if and only if they lie in one directory |
| `GenCalls.ConfigOkIff` | internal/gen/config.go:109-153 | what the validation of the options refuses and accepts |
| `Comments.DefusedIsSafe` | internal/gen/comments.go:49-65 | no directive line is left, the line count is kept, a second pass changes nothing, and text passes unchanged if and only if it has no directive |
| `Comments.TextSurvives` | internal/gen/comments.go:40-65 | removing the inserted space gives the author's line back |
| `Comments.DefuseDirectives` | internal/gen/comments.go:49-65 | the in-place loop computes that filter |
| `VtCodec.FillBackward` | pgrpc/vtcodec/codec.go:130-137 | the payload ends up at the end of the buffer and nothing before it changes |
| `VtCodec.MarshalVt` | pgrpc/vtcodec/codec.go:98-142 | the prefix is kept and exactly SizeVT bytes are appended, or the fill's error or a wrong length is reported and nothing is appended |
| `VtCodec.MarshalAppend` | pgrpc/vtcodec/codec.go:98-142 | prefix plus encoding, by the fast path or the fallback |
| `VtCodec.EncodeIsExact` | pgrpc/vtcodec/codec.go:120-141 | the fast path succeeds if and only if the fill reports SizeVT without an error, and then appends exactly that many bytes; any other report, true or false, is rejected |
| `VtCodec.EncodeFrom` | pgrpc/vtcodec/codec.go:98-141 | which fill is called, and which error or bytes come out |
| `VtCodec.Unmarshal` | pgrpc/vtcodec/codec.go:145-163 | reset, then merge, in place |
| `VtCodec.DecodeForgets` | pgrpc/vtcodec/codec.go:145-163 | neither the error nor a successful result depends on what the message held |
| `VtCodec.DecodeIsMerge` | pgrpc/vtcodec/codec.go:145-163 | decoding is a merge into a message just reset, whichever message that was |
| `VtCodec.DecodeForgetsIff` | pgrpc/vtcodec/codec.go:153-162 | old contents survive if and only if the type can parse but not reset |
| `UnaryCall.Unary` | pgrpc/unary.go:43-84 | whatever scratch and out message hold, bytes sent, error and response are those of a fresh call |
| `UnaryCall.CallAll` | pgrpc/unary.go:43-84 | over any list of calls with failures anywhere, reuse shows what fresh buffers show |
| `UnaryCall.CallSucceedsIff` | pgrpc/unary.go:43-84 | a call succeeds if and only if every stage does, and with what the answer decodes to |
| `UnaryCall.CallFailsWith` | pgrpc/unary.go:35-84 | nothing is sent unless the request encodes; codec failures are Internal, all others unchanged |
| `CallerGuard.RefusedIffBusy` | pgrpc/errors.go:124-132 | a call is refused if and only if another is inside the Caller |
| `CallerGuard.AdmittedCallsAreUndisturbed` | internal/gen/emit.go:302-348 | with the guard, in every interleaving of calls of all shapes on one Caller, panics included, at most one is inside and every admitted one ends as it would alone |
| `CallerGuard.AloneIsFresh` | internal/gen/emit.go:324-332 | alone, a unary call is the sequential call with fresh buffers |
| `CallerGuard.AloneOpens` | internal/gen/emit.go:333-346 | alone, a server-streaming call sends the encoding of its own request and the other shapes send nothing |
| `CallerGuard.GuardIsReleased` | internal/gen/emit.go:320-327 | whatever panicked, the guard is free once no call is inside |
| `CallerGuard.UnguardedSendsAnothersBody` | pgrpc/errors.go:117-124 | without the guard there is an interleaving in which a call sends another call's request body |

## Left out

- poseidon itself (connection, HPACK, framing, flow control, AppendMetadata, MetadataValue): an environment with the contract the code relies on.
- protobuf and the generated vtprotobuf methods: functions with the backward-fill contract; a fill never writes past its buffer, where Go would panic, and one that claims to have filled the buffer has; any other report is allowed.
- pgrpc/protocodec, pgrpc/raw.go, pgrpc/aliases.go, pgrpc/version.go: they hand their arguments on to protobuf or poseidon and hold no state of their own.
- cmd, examples: programs that only call what is modelled here.
- The readers Status, Trailer, Ended and Header as steps of their own: they read the latched snapshot under the mutex; what they return is in `StreamCore`.
- Non-ASCII metadata keys: lower-casing them happens inside poseidon.
- Codecs or options that re-enter the stream or read configuration addresses.
- Allocation counts and escape analysis. The growth policy of slices, path.Join and Unicode's letter classes are parameters: the results hold for any.
- Text of error messages and of generated comments; the sorting of conflicts in the message.
- Import names and blank declarations of generated files: they are not package-scope identifiers of the generator.
- Metadata.Builder.Fields: a binary value in the array is a snapshot of its arena bytes, so that the value aliases the arena until Reset is not captured.
