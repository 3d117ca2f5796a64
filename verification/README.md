# SnailMQ: a verified model

SnailMQ is an in-memory broadcast message broker with a small binary TCP protocol.
This project models its three layers in Dafny and proves what they promise, alone and
composed into one statement: what a subscriber reads over the network is a prefix of
its topic's log, wherever the connection is cut.

## How it is built

Concurrent parts are step systems: a `State`, the `Action`s anybody may take, and a
`Run` over any sequence of them, so a lemma about `Run` is about every interleaving.
The objects whose methods change fields are classes.  Where an object is shared between
goroutines, its class keeps the run that led to its state as a ghost, every statement
that touches shared state is one step, and other goroutines act between the steps
(`Partition.Meanwhile`, `Batcher.Others`, `Server.Others`), so what is proved about runs
holds for the objects.  How fine the steps in between are is said under "Left out".

What others may do during a call, and what a call outside the model answers, are arguments
of the method (`o`, `busy`, `closing`, `answer`, `buffered`), and the contract says what it
comes to when they do nothing: a close, a cancellation or an error that nobody caused cannot
be the result.

| file | what it models |
|---|---|
| `Words` | bytes, machine words, little-endian fields, Go's lossy casts and wrapping `int` |
| `Store` | the log backend; offset and index agree, 64-bit reads |
| `Kernel`, `Broadcast` | one partition with its lock, publishers and readers as a step system; what holds over every run |
| `Partitions`, `Facade` | the Partition, Subscription and Broker objects |
| `Names` | which topic names are allowed |
| `Brokers` | the broker lock, looked-up topics and Close, over partitions that are kernels |
| `Codec`, `Decoders` | the payload formats; decoders specified without saying how they walk the bytes |
| `Frames`, `Writers` | frames on a byte stream, and the writers that never build the frame |
| `HeaderPool`, `PoolRuns` | the batch writer on the heap with its shared pool of headers, and the pool under concurrency |
| `Batching` | the client's Batcher: Add, Flush, Close and the timer racing |
| `Lifecycle` | the server's Serve, Close and connection handlers |
| `Requests` | one request: what the server makes of a frame and the client of the answer |
| `Sessions` | one client on one connection, two byte queues that may be cut, other clients, as a step system |
| `Clients`, `Handlers` | the Client object and one turn of the server's connection loop on the Broker object |
| `Delivery` | the push loop, the network subscription, and the end-to-end theorem |

The layers meet in contracts.  A `Partition` object is a run of the kernel; the `Facade`
broker states what its calls do to the logs of its partitions; `Handlers.Server.Turn` does
on that object what `Requests.Handle` says; `Clients.Client` does what `Requests.Refusal`,
`FrameOf` and `Answer` say; `Requests.ServedAs` says that the two together come to the plain
call on the broker; `Sessions` runs them against each other over byte queues;
and `Delivery` takes the kernel's batches through the batch writer, a cut connection and
the frame reader back to messages.

## Results that are not a plain yes

- A store that fails in the middle of a batch leaves a parked reader behind the log with
  nobody to wake it (broker/partition.go:69-72 returns before the signal loop).
  `Broadcast.NoLostWakeupIff`: no wake-up is lost in any run exactly when that cannot happen.
- The client goes on using its connection after a read timeout, so the next call may be
  given the previous call's answer.  `Sessions.TruthIff`: every finished call is told the
  truth in every run exactly when no call gives up waiting.
- The size check of a batch adds lengths in a Go `int`.  `Writers.BatchCheckIff` says for
  which batches it decides correctly and for which it does not, at both widths; on a 32-bit
  platform 129 payloads of the largest size pass it (`Writers.OversizeBatchSlipsThrough`).
- `maxConns` bounds the registered connections, not the handlers: a handler leaves `conns`
  before it ends, so with any limit there can be any number of them
  (`Lifecycle.ManyHandlers`).  `HandlersWithin` says exactly when they are within a bound.
- docs/PROTOCOL.md:30 and :32 give CreateTopic and Subscribe a length prefix; the code
  sends and reads the bare name, and the model follows the code.

## Main results

| layer | results |
|---|---|
| partition | `Kernel.RunInv`, `Broadcast.NoLostWakeupIff`, `BoundedLooping`, `ExactlyOnceInOrder`, `PublishContiguity`, `CloseOnce`; on the object `Partitions.Subscription.Read` |
| broker | `Brokers.ClosedForGood`, `PartitionsAreKernels`, `Usable` |
| protocol | `Codec.ParsedIff`, `RoundTripIff` and the decoders; `Frames.Reassemble`, `NextFrameErrors`; `Writers.WritePublishBatch`, `BatchCheckIff`; `HeaderPool.WriteMessageBatch`, `PoolRuns.SentDependsOnArguments` |
| batcher | `Batching.Conservation`, `NothingStranded`, `EachBatchOnce`, `AnswersAreTold`, `ErrorsKept`, `EmptyOnceClosed`; on the object `Batcher.Flush` |
| server life | `Lifecycle.CoverAndBound`, `QuietOnceClosed`, `NobodyLeftBehind`, `NeverStuck` with `BoundedClosing` |
| requests | `Requests.ServedAs`, `PublishIsStored`, `LetThroughIff`, `AnswerIff`, `SentinelsSurvive` |
| sessions | `Sessions.Paired`, `TruthIff`, `HandedIsStored`, `ServedInOrder`, `RangesIncrease`, `OnlyMessagesFollow`, `AcceptedIsPushable`, `BoundedWait`, `NothingStalls` |
| end to end | `Delivery.EndToEnd`, `PushAndRead` |

## Model

| member | source | states |
|---|---|---|
| Words.U32Inverse | protocol/codec.go:16-22 | a 32-bit field and its four bytes determine each other |
| Words.I64Inverse | protocol/codec.go:81-91 | every signed offset survives the wire and every eight bytes are one offset |
| Words.LittleEndian | protocol/codec.go:81-91 | the bytes of every field weighed by their place give the number, low byte first, offsets in two's complement |
| Words.WrapAdd | protocol/frame.go:239-246 | adding in a wrapping `int` step by step is wrapping the true sum once |
| Store.WindowContinues | broker/store.go:60-71 | a read from a cursor inside the log continues it there with as many messages as asked for, or all up to the end; empty only at the end, its last offset one before the next cursor |
| Store.MemoryLog.Append | broker/store.go:44-53 | the offset returned is the index the message gets; everything before stays |
| Store.MemoryLog.Read | broker/store.go:60-71 | for all 64-bit arguments: nil exactly out of range or when nothing is asked for, otherwise min(max, rest) messages from `from` on in fresh storage; no intermediate overflow |
| Names.NameError | broker/broker.go:56-69 | which of the three errors a name has: empty, over 255 bytes, or a control character in it; none exactly for a valid one |
| Names.ValidateTopicName | broker/broker.go:56-69 | the byte loop finds just that |
| Kernel.RunInv | broker/partition.go:30-142 | in every interleaving: offsets are indices, cursors match what was delivered, log = finished calls + call in flight, wake-ups pending, one stale token at most, done closed once |
| Broadcast.RunExtends | broker/subscription.go:34-70 | later steps never take back a message, a delivered batch or a close; a closed partition's log and a closed subscription's history are final |
| Broadcast.WakeupsKept | broker/subscription.go:40-69 | with a store that never fails half-way, every parked reader with something to do has its token or will be signalled, and on a closed partition can return |
| Broadcast.StrandedReader | broker/partition.go:69-72 | a run in which a failing store leaves a parked reader behind the log with no signal coming |
| Broadcast.NoLostWakeupIff | broker/partition.go:56-86 | no wake-up is lost in any run if and only if the store cannot fail inside a batch |
| Broadcast.BoundedLooping | broker/subscription.go:40-69 | one Read enters its critical section at most three times, and the third check always returns |
| Broadcast.ExactlyOnceInOrder | broker/subscription.go:34-70 | all batches a subscription has returned, joined, are the log up to its cursor, offsets 0, 1, 2, ... |
| Broadcast.HistoriesComparable | broker/subscription.go:34-70 | of two subscribers one has seen a prefix of what the other has |
| Broadcast.PublishConservation | broker/partition.go:30-86 | when nobody holds the lock the log is exactly what the finished calls kept, in order |
| Broadcast.PublishContiguity | broker/partition.go:52-86 | base and length returned name exactly the call's own payloads, and the ranges follow each other without gap |
| Broadcast.AllOrNothing | broker/partition.go:56-86 | with a store that never fails half-way a call left all of its payloads or none |
| Broadcast.RejectedOnceClosed | broker/partition.go:34-36 | every call that returns after the partition closed was rejected |
| Broadcast.CloseOnce | broker/partition.go:117-142 | no order of closes closes a done channel twice; open exactly while listed; a closed partition lists nobody |
| Partitions.Subscription.Attempt | broker/subscription.go:41-59 | the critical section: closed wins over data, a batch moves the cursor just past it, nothing otherwise |
| Partitions.Subscription.Deliver | broker/subscription.go:54-57 | the batch handed out is the log between the old and the new cursor, short only at the log's end, and is remembered once |
| Partitions.Subscription.Read | broker/subscription.go:34-70 | terminates whatever others do; the next stretch of the log, `max` long or up to its end; ErrClosed only of a closed subscription or partition, the context's error only if it is cancelled, the cursor unmoved; still waiting only when open, not cancelled and at the end of the log; others' doings are the only changes |
| Partitions.Subscription.Round | broker/subscription.go:40-69 | once around the loop: returns, goes on with one entry more, or waits for want of anything to receive |
| Partitions.Partition.SignalOne | broker/partition.go:43-48 | after the non-blocking send the token is there, whether it was before or not |
| Partitions.Partition.Announce | broker/partition.go:79-84 | every live subscriber has its token, nothing else changed |
| Partitions.Partition.Publish | broker/partition.go:30-50 | one message at the offset returned and every subscriber signalled, or ErrClosed and no change |
| Partitions.Partition.PublishBatch | broker/partition.go:56-86 | the whole batch behind the log from the base returned, every subscriber signalled, one call recorded; empty: (0, nil); closed: no change |
| Partitions.Partition.Subscribe | broker/partition.go:91-106 | a new subscription from offset 0 in the set; the others untouched; refused once closed |
| Partitions.Partition.Unsubscribe | broker/partition.go:117-125 | the subscription is out and its done closed, any number of times |
| Partitions.Partition.Close | broker/partition.go:130-142 | closed, no subscriptions left, every done closed; idempotent |
| Partitions.Partition.Await | broker/subscription.go:61-68 | others act while a reader is parked; it wakes for a channel that can be received from, and if there is none it has nothing to read |
| Partitions.Partition.Select | broker/subscription.go:61-68 | the token, `done` or a cancelled context, whichever is there; no wake-up exactly when none is, and then no message and no close is waiting |
| Partitions.Partition.Meanwhile | broker/subscription.go:59-68 | whatever others do, the cursor and the history of this subscription stay; what they may not do has not happened |
| Brokers.RunsOk | broker/broker.go:95-160 | in every run each partition is in a state of its own kernel run, topics name each partition once, and closing has come exactly as far as Close has |
| Brokers.TopicsSeparate | broker/broker.go:95-120 | two topics never share a partition |
| Brokers.TopicsWithin | broker/broker.go:91-120 | in every run every topic has a valid name and a positive limit bounds their number |
| Brokers.PartitionsAreKernels | broker/broker.go:122-160 | everything proved of kernel runs holds of every partition of every broker |
| Brokers.PartsContinue | broker/broker.go:122-160 | broker steps only continue the partitions' runs |
| Brokers.ClosedForGood | broker/broker.go:223-239 | once Close has returned every partition ever created is closed for good; calls through old handles are rejected and leave the log alone |
| Brokers.Usable | broker/broker.go:95-160 | from any state of an open broker with room a topic can be created, looked up and published to at offset 0, leaving all other partitions alone |
| Facade.Broker.CreateTopic | broker/broker.go:95-120 | which error in which order, names included, or a new empty topic and every other log as before |
| Facade.Broker.Publish | broker/broker.go:141-148 | the one topic's log grows by the message at the offset returned; all others stay |
| Facade.Broker.PublishBatch | broker/broker.go:153-160 | the one topic's log grows by the batch from the base returned; all others stay |
| Facade.Broker.Subscribe | broker/broker.go:165-172 | a fresh idle subscription at offset 0 on the topic's partition; no log changes |
| Facade.Broker.Close | broker/broker.go:223-239 | every partition ever created closed, no log changed, the topics forgotten |
| Codec.PrefixFree | protocol/codec.go:25-220 | two values whose encodings both start the same bytes are equal |
| Codec.ParsedIff | protocol/codec.go:25-220 | the decoded value is exactly the one whose encoding starts the input; otherwise ErrTruncated |
| Codec.RoundTripIff | protocol/codec.go:25-220 | decoding undoes encoding, trailing bytes ignored, if and only if every length fits 32 bits |
| Codec.CutIsTruncated | protocol/codec.go:25-220 | every proper prefix of an encoding gives ErrTruncated |
| Decoders.EncodePublishBatch | protocol/codec.go:109-117 | the loop builds the format's encoding |
| Decoders.EncodeTopics | protocol/codec.go:159-165 | the loop builds the format's encoding |
| Decoders.DecodeList | protocol/codec.go:142-154 | the list of blobs from a position on, or those before the first one that is cut off |
| Decoders.DecodePublish | protocol/codec.go:35-56 | succeeds exactly on inputs some encoding starts, with that value |
| Decoders.DecodeMessage | protocol/codec.go:68-78 | the same for pushed messages |
| Decoders.UnmarshalOffset | protocol/codec.go:86-91 | the same for offsets |
| Decoders.DecodePublishAck | protocol/codec.go:100-105 | the same for batch acknowledgements, the count converted to an `int` of the platform |
| Decoders.DecodePublishBatch | protocol/codec.go:121-156 | the same for batches; the count check in front never rejects a valid input |
| Decoders.DecodeTopics | protocol/codec.go:168-191 | the same for topic lists |
| Decoders.DecodeError | protocol/codec.go:202-220 | the same for errors, through a consuming reader |
| Frames.NextFrameIff | protocol/frame.go:76-113 | a frame is read exactly when the stream begins with its encoding and it is within the limit, consuming just that |
| Frames.NextFrameErrors | protocol/frame.go:76-113 | from the bytes: when each of the four errors is reported, and what is left unread then |
| Frames.HeaderBytes | protocol/frame.go:66-74 | the eight header bytes, one by one |
| Frames.NextFrameCut | protocol/frame.go:103-113 | a frame cut anywhere is ErrTruncated |
| Frames.Reassemble | protocol/frame.go:66-113 | over a stream cut anywhere repeated ReadFrame gives exactly the frames that arrived whole, then ErrTruncated |
| Frames.ReassembleWhole | protocol/frame.go:66-113 | uncut, all frames come back |
| Frames.Stream.ReadHeader | protocol/frame.go:76-99 | magic, version and limit checked in this order, the length before any conversion |
| Frames.Stream.ReadFrame | protocol/frame.go:103-113 | one frame or error off the stream, as characterised by NextFrameIff and NextFrameCut |
| Writers.WriteFrame | protocol/frame.go:117-123 | the frame, cut where the connection fails, or ErrTooLarge and not a byte |
| Writers.WriteFrameHeader | protocol/frame.go:126-137 | the first eight bytes of the frame, or ErrTooLarge and not a byte |
| Writers.WriteMessage | protocol/frame.go:183-198 | byte for byte the frame of the encoded message; refused exactly when its body is over the limit |
| Writers.WritePublishOp | protocol/frame.go:201-234 | byte for byte the frame of the encoded publish, either opcode; refused by the wrapped length |
| Writers.MeasureBatch | protocol/frame.go:239-248 | the wrapping loop measures the encoded batch, or finds a payload too large |
| Writers.WritePublishBatch | protocol/frame.go:238-274 | byte for byte the frame of the encoded batch, or ErrTooLarge and not a byte |
| Writers.SizeCheckExact | protocol/frame.go:126-129 | for which lengths the wrapped check decides as intended, if and only if |
| Writers.BatchCheckIff | protocol/frame.go:238-248 | the batch writer refuses exactly the bodies over the limit if and only if a payload is too long by itself or the summed length is one the check decides rightly |
| Writers.PublishCheckExact | protocol/frame.go:211-215 | with the callers' own bounds the check of a single publish is exact at both widths |
| Writers.BatchCheckExact | protocol/frame.go:238-248 | in particular when the number of payloads keeps the sum in range |
| Writers.OversizeBatchSlipsThrough | protocol/frame.go:239-248 | 129 payloads that pass the 32-bit check although the peer must refuse the frame |
| Writers.CastsLossless | protocol/frame.go:126-274 | a body within the limit loses nothing to 32-bit casts and is read back |
| HeaderPool.Pool.Get | protocol/frame.go:17 | a header that nobody holds, idle before or new |
| HeaderPool.Pool.Put | protocol/frame.go:150-156 | the header is no longer lent, and may be kept |
| HeaderPool.Fill | protocol/frame.go:164-171 | the header holds exactly the frame header, offset and length; nothing of its old contents |
| HeaderPool.Gather | protocol/frame.go:158-174 | distinct borrowed headers, each filled for its message, up to the first message too long |
| HeaderPool.Release | protocol/frame.go:152-156 | each header is given back once, others' headers stay lent |
| HeaderPool.WriteTo | protocol/frame.go:176 | the queued slices, read only now, are the frames of the messages |
| HeaderPool.WriteMessageBatch | protocol/frame.go:142-179 | the concatenated frames of the arguments whatever the pool held, or an error and not a byte; every header back on all paths, others' headers untouched |
| HeaderPool.PushIsHeadAndPayload | protocol/frame.go:164-172 | header and payload together are the frame of the encoded message |
| PoolRuns.HeadersExclusive | protocol/frame.go:150-178 | in every interleaving of calls a header in use has one user and is not in the pool |
| PoolRuns.SentDependsOnArguments | protocol/frame.go:150-178 | in every interleaving a finished call has put every header back and sent its own frames, or the front of them cut at any byte; it refuses exactly when a message is too long |
| PoolRuns.CallsEnd | protocol/frame.go:158-178 | a call that has not finished can always move, and each of its moves brings it nearer to its end |
| Batching.RunInv | network/client.go:282-341 | conservation, no stranding, one taker per batch, a bounded buffer and errors kept in every interleaving |
| Batching.Conservation | network/client.go:282-333 | accepted payloads in Add order are the batches in take order followed by the buffer |
| Batching.NothingStranded | network/client.go:282-333 | a full buffer has a flush coming; a non-empty one an armed timer or a flush coming; the buffer outgrows maxBatch only by adders about to flush |
| Batching.EachBatchOnce | network/client.go:307-333 | PublishBatch gets no batch twice, and every batch once all flushes have returned |
| Batching.AnswersAreTold | network/client.go:322-331 | the flush that took a batch is told what PublishBatch returned for that very batch |
| Batching.ErrorsKept | network/client.go:313-327 | an error is kept exactly when some flush has failed; it is the last one recorded and was some batch's |
| Batching.RunContinues | network/client.go:282-341 | what was accepted or taken stays; a close or a recorded error stays and stops Add |
| Batching.EmptyOnceClosed | network/client.go:335-341 | after the section of Close's flush the buffer is empty for ever, nothing more is accepted or taken, no timer runs |
| Batching.Batcher.constructor | network/client.go:274-279 | a maxBatch below one becomes one; nothing buffered |
| Batching.Batcher.Add | network/client.go:282-304 | refused without a trace when closed or in error, otherwise accepted behind all before; full: the answer is that of its own flush, whose error stays; with nobody else about, exactly one batch goes out |
| Batching.Batcher.Flush | network/client.go:307-333 | the answer is for its own batch: base, its length and PublishBatch's error, which stays; with nothing to send the error kept, if one is; with nobody else about, the whole buffer goes out as one batch |
| Batching.Batcher.Close | network/client.go:335-341 | closed, the buffer empty, everything accepted taken into a batch; the error as for Flush |
| Lifecycle.RunInv | network/server.go:113-178 | registered connections are the running handlers' (or about to be), the wait group counts the handlers, the limit holds, closing has told everyone |
| Lifecycle.CoverAndBound | network/server.go:127-149 | wait group = handlers running = registered + just leaving; a positive limit bounds the registered |
| Lifecycle.ManyHandlers | network/server.go:441-449 | with any limit whatever there can be any number of handlers |
| Lifecycle.HandlersWithin | network/server.go:127-149 | the handlers are within a bound if and only if the registered connections leave room for those still departing |
| Lifecycle.QuietOnceClosed | network/server.go:156-178 | once any Close has returned, and ever after, no handler runs and nothing is or gets registered |
| Lifecycle.EverybodyTold | network/server.go:158-174 | when the wait begins everyone registered has been cancelled and their socket closed, and no handler can start |
| Lifecycle.NobodyLeftBehind | network/server.go:182-184 | whoever has left the map is cancelled, and whoever is gone or turned away has its socket closed |
| Lifecycle.WindingDown | network/server.go:156-178 | every step of the closing goroutine or a handler brings Close nearer to its end |
| Lifecycle.NothingWindsUp | network/server.go:156-178 | once closing has begun no step of anybody puts the end of Close further off |
| Lifecycle.BoundedClosing | network/server.go:156-178 | from there on every run has at most a fixed number of steps of the closing goroutine and the handlers, whatever else happens |
| Lifecycle.NeverStuck | network/server.go:156-178 | until Close has ended, one of those steps can be taken |
| Lifecycle.Server.ServeOne | network/server.go:114-149 | closed: turned away silently; full: turned away with an error frame of CodeOverloaded that reads back; otherwise registered, counted and handled in one section |
| Lifecycle.Server.RemoveConn | network/server.go:442-449 | cancelled and out of the map |
| Lifecycle.Server.LeaveConn | network/server.go:182-184 | the deferred calls in their order, others in between, end with the handler gone, not registered, cancelled and its socket closed; with nobody else about, nothing more |
| Lifecycle.Server.CloseAll | network/server.go:158-174 | every connection collected is cancelled and closed, whatever others do meanwhile; with nobody else about, no other one |
| Lifecycle.Server.Close | network/server.go:156-178 | closed at once; it has returned exactly when `closeDone` is closed, and then nothing is registered and no handler alive; with nobody else about, it returns exactly when no handler was running |
| Requests.HandleKeeps | network/server.go:207-249 | whatever frame arrives, no message too long to push is stored and nothing stored is lost |
| Requests.SentinelsSurvive | network/server.go:385-406 | the errors a client can test for come out of the wire as what went in; no other error is taken for one of them |
| Requests.ServedAs | network/server.go:202-277 | request frame, handling and answer together come to the plain call on the broker: same broker afterwards, same outcome, same error, a stream exactly for a subscription; a success always fits its frame |
| Requests.PublishIsStored | network/server.go:207-249 | a publish of any of the three kinds that nothing stands against is stored whole behind its topic's log and nowhere else |
| Requests.PublishFrame | network/server.go:207-249 | any publishing frame, told from its bytes: undecodable, too long, closed or unknown topic change nothing and are answered with their codes, everything else is stored |
| Requests.CreateFrame | network/server.go:203-206 | any CreateTopic frame, told from its bytes: the first of six objections and its code, or the new topic |
| Requests.NoRequest | network/server.go:316-319 | any other opcode is passed over |
| Requests.ErrorRead | network/client.go:420-425 | an error frame that can be sent is read back as that error's code, by a call and by a subscriber |
| Requests.LetThroughIff | network/client.go:142-256 | the client lets a request through if and only if its name, payloads, batch and frame are within the limits, spelled out |
| Requests.RefusedBecause | network/client.go:142-256 | when each error of the client's own checks is given |
| Requests.AnswerIff | network/client.go:386-431 | what a call makes of any frame, told from its bytes, in both directions; an acknowledgement must count what was sent |
| Requests.AnswerIsTrue | network/client.go:386-431 | a request the client lets through is answered, and the client reads the answer as something true of the broker: a publish was put at the end of the log, a listing misses no topic |
| Requests.TrueLater | network/client.go:171-227 | what was true of an outcome stays true |
| Requests.PushRead | network/client.go:474-502 | a message that may be stored fits its push frame and is read back |
| Sessions.Cut | protocol/frame.go:103-113 | of a queue cut at any byte the whole frames survive and a torn piece that reads as truncated |
| Sessions.RunInv | network/server.go:182-320 | queues, phases and calls fit together in every run without timeouts |
| Sessions.Paired | network/client.go:401-431 | the frame an awaiting call reads is the answer to its own request, never an unexpected opcode or malformed body |
| Sessions.ToldTheTruth | network/client.go:171-256 | a finished call's outcome is true then and later: the payloads stand in the log at the offset returned |
| Sessions.HandedIsStored | network/client.go:232-256 | the request of a fire-and-forget publish is in line, or has been served, and then its message stands where the log ended if the broker was open and had the topic |
| Sessions.ServedInOrder | network/server.go:189-249 | requests are served at most once and in call order, and what they publish on a topic stands in the log in that order |
| Sessions.RangesIncrease | network/client.go:171-227 | of two publishes on one topic the later call's range of offsets lies behind the earlier one's |
| Sessions.ListingComplete | network/client.go:154-167 | a listing holds topics only, and every topic there was when it was asked for |
| Sessions.NeverHangs | network/client.go:401-431 | given room in the logs, a waiting call's answer can be read or its request served |
| Sessions.BoundedWait | network/client.go:401-431 | while a call waits, each turn of the server takes one request off the queue and none is added, so the answer comes after as many turns as requests were in line |
| Sessions.OnlyRequestsArrive | network/server.go:189-202 | the server reads only whole requests from this client, and while it pushes the peer monitor gets nothing |
| Sessions.OnlyMessagesFollow | network/server.go:324-351 | after the subscription's acknowledgement only messages come, each the log's next |
| Sessions.NothingStalls | network/server.go:324-351 | while the server pushes, a message can be read or written or the subscriber has the whole log |
| Sessions.ReceivedPrefix | network/client.go:474-502 | what was read off the stream is a prefix of the topic's log with offsets from 0, wherever the connection was cut |
| Sessions.AcceptedIsPushable | network/server.go:324-361 | every stored message can be pushed, so the push loop's ErrTooLarge branch is never taken; a push takes the next 64 messages or all there are |
| Sessions.Mispaired | network/client.go:418-431 | after a timeout one publish is told the offset of another |
| Sessions.TruthIff | network/client.go:401-431 | every finished call is told the truth in every run if and only if no call gives up waiting |
| Clients.Client.WriteRequest | network/client.go:401-411 | the direct writers send the request's frame, or nothing when the writer finds it too large, at either width |
| Clients.Client.ReadAnswer | network/client.go:415-440 | opcode check and error decoding of one answer; a read that fails on a closed client reports that |
| Clients.Client.RoundTrip | network/client.go:401-431 | one frame out, one answer in; a request refused for size leaves both directions untouched |
| Clients.Client.CreateTopic | network/client.go:142-151 | refused by its checks in order, or overtaken by somebody's close, with no byte sent; otherwise one exchange, a failure on a closed client reported as that; only others close the client |
| Clients.Client.ListTopics | network/client.go:154-167 | the same, with the decoded names |
| Clients.Client.Publish | network/client.go:171-193 | the same, with the decoded offset |
| Clients.Client.PublishBatch | network/client.go:197-227 | the same, with base and count checked |
| Clients.Client.PublishAsync | network/client.go:232-256 | the same, without reading anything |
| Clients.Client.Subscribe | network/client.go:345-367 | the same, and on success and only then the client is streaming |
| Clients.ChecksAgreeIff | network/client.go:171-256 | a request that passes the other checks is refused for its size as it should be, if and only if it is no batch or its length is decided rightly |
| Handlers.Server.PublishOne | network/server.go:207-226 | the broker object and the answer are those of the specification of a single publish, which `Requests.PublishFrame` pins to the bytes |
| Handlers.Server.PublishBatch | network/server.go:355-362 | one message too long refuses the whole batch before anything is stored |
| Handlers.Server.PublishMany | network/server.go:227-243 | the broker object and the answer are those of the specification of a batch, pinned in the same way |
| Handlers.Server.ListTopics | network/server.go:250-269 | the names, or an error when closed or too long for a frame |
| Handlers.Server.Subscribe | network/server.go:270-277 | a subscription at offset 0 exactly when open and the topic exists |
| Handlers.Server.Reply | network/server.go:367-382 | the answer, or the error that `Requests.ServedAs` and `CreateFrame` name, goes out, cut where the connection fails; one too large to send goes out not at all and ends the connection |
| Handlers.Server.Turn | network/server.go:189-320 | one turn of the loop does to broker and connection what the request specification says, unreadable input ends it, and a subscription it leaves is new, on the requested topic, at offset 0 and idle |
| Handlers.Server.Stream | network/server.go:310-315 | after such a turn the connection carries what the subscription reads from the start of its topic's log, all of it once the loop waits; when the loop is over the subscription is out of the partition |
| Delivery.CutStream | network/server.go:343-351 | however a push stream is cut, what is read from it is a prefix of the messages read from the log |
| Delivery.QuietAfterError | network/client.go:474-502 | nothing is left in a push stream after its first error |
| Delivery.EndToEnd | network/server.go:324-351 | in any run of a partition, wherever the connection is cut, the subscriber has read a prefix of the log, every offset in place |
| Delivery.NothingMissing | network/server.go:324-351 | uncut and pushable, the subscriber has everything that was read from the log |
| Delivery.OversizeTold | network/server.go:343-348 | a message too long for its frame ends the stream: all before it has arrived, then the error frame |
| Delivery.PushBatch | network/server.go:336-350 | one batch as its frames, or the error frame in its place; the loop goes on exactly when the batch could be pushed and was |
| Delivery.Stream | network/server.go:324-351 | the loop sends the batches its reads returned, in order, while others work on the partition: up to 64 messages each, and all but the last full when nobody publishes; it ends only for a failed read or write, with the reason, and waits only at the end of the log |
| Delivery.NetSubscription.Read | network/client.go:474-502 | exactly the next frame is consumed and the message it carries, or its error, returned; ErrClosed only of a client that somebody closed; after a failure on a push stream only failures |
| Delivery.NetSubscription.ReadBatch | network/client.go:506-524 | unless closed, the next messages, as many as `max`, the buffer and the stream allow, none skipped or repeated; the first one's error passed on |
| Delivery.PushAndRead | network/server.go:324-351 | end to end on the objects: push loop, any cut, batches read by the client; what it was given is a prefix of the topic's log, and the whole log once the loop has caught up, nothing is cut and the client reads on |

## Left out

- Sockets, deadlines, buffer sizes, dialing, accept errors and panic recovery; a connection is byte queues, and a timeout exists only as the client's giving up (`Sessions`).
- Fair scheduling and progress that needs it: enabledness and step bounds are proved instead.
- Payload aliasing: Go hands the same bytes to every subscriber and returns decoded payloads as sub-slices; here payloads are values, so that nobody modifies them is not part of the model.  The pooled headers, where aliasing decides what is sent, are on the heap.
- Error texts and `%w` wrapping: the model takes any text for an error.
- Sorting in ListTopics, TopicCount, SubscriberCount, option normalisation other than that of `Batcher` and `Server`: easy members; a listing may come in any order.
- Custom stores: the objects use the memory log; a store that fails is part of the step system only.
- A log longer than the largest `int64`: Go cannot allocate it; Append and the publishing operations require room.
- Clients.Client.PublishBatch: `payloads` is a Go slice, so its length is an `int` of the platform.
- Partitions.Partition.Await: operations of others run whole and with the lock free while it waits, and reads of other subscriptions, which change those subscriptions only, do not appear; the token taken in the middle of somebody's signal loop, and readers against readers, are in `Kernel`.
- Sessions.RunInv: does not model goroutines sharing one client; its mutex makes the calls follow each other.
- Sessions.TruthIff: a call that gives up is modelled as having consumed no byte of its answer.
- Batching.RunInv: the order in which batches taken at the same time reach the server is not claimed; PublishBatch is any outcome.
- Lifecycle.Server.Close: returns false where the call would still be waiting, since whether handlers end is not ours to say; `NeverStuck` and `WindingDown` say that nothing but they delays it.
- Handlers.Server.Turn: takes the next frame off one stream and stops at a subscription, where `Handlers.Server.Stream` goes on; the peer monitor is represented by `Sessions.OnlyRequestsArrive`.
- cmd/demo and benchmark.
