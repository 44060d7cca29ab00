# p_rpc, modelled and verified

p_rpc is a small RPC framework. A client registers a call under an id, sends it as
length-prefixed fields, and waits for the response that carries the same id. The
server is a pipeline: a listener hands readable sockets to readers in turn, a reader
decodes one call and passes it on, a handler executes it, and the response is written
either by that handler itself or by the responder thread, which is told where to look
by a queue of connection tokens.

The model keeps both forms of the program:

- **Transition systems.** `Pipeline` (handlers, responder, call queue, response
  queues, tokens), `Acceptance` (listener, readers, connection table) and `EndToEnd`
  (both of them, the clients and the byte streams in between). Every lock-protected
  section is one step, named by a label; a run is a sequence of labels, and theorems
  are about every run, with any number of threads. The push back into the response
  queue after a partial write, which happens while the connection's mutex is held, is
  a step of its own.
- **Programs.** `BlockQueue`, `CodecIO`, `Connection`, `Threads`, `Listener` and
  `Client` are classes with loops and fields as the source has them. The codec is
  proved against functions on byte sequences, and the thread loops of `Threads` and
  `Listener`, with the other threads doing as they like in between, against the
  transition systems.

The order of reading: `Bytes`, `Sequences`, `Codec`, `CodecProofs`, `Response`, `Method`, `CodecIO`
(the wire); `BlockQueue`, `Pipeline`, `PipelineInv`, `PipelineFraming`, `PipelineStream`,
`PipelineWitness`, `PipelineOrder`, `PipelineProgress`, `PipelineRefinement`, `PipelineSafety`,
`ProgramOrder`, `Threads`, `Connection` (the response stage); `Acceptance`,
`AcceptanceInv`, `Listener` (the front); `Client`, `EndToEnd`, `EndToEndInv`,
`EndToEndProgress`, `EndToEndTermination`, `EndToEndSafety` (all of it).

The platform is little-endian with a 4-byte `int`, an 8-byte `size_t` and a signed
`char`. `dafny verify dfyconfig.toml` checks the project.

What the proofs found about the code:

- Two responses on one connection can mix. A partly written call goes to the back of
  the connection's queue, so another response may be started before it is finished.
  `PipelineStream.ContiguousExactly` says exactly when that happens, and
  `PipelineWitness.ClientLosesStep` is a run in which the client then reads a call id
  nobody sent, and aborts.
- A request cut short is accepted as a shorter one exactly when its last parameter is
  a nested method, because that reader swallows its exceptions
  (`CodecProofs.TruncationSafeExactly`).
- An integer keeps only its sign-extended low byte, so `create` returns the true sum
  exactly when that sum is in -128..127 (`Method.RemoteCreateIsSumExactly`).
- A string of exactly 2^31 - 1 bytes is sent and cannot be read: the buffer size, one
  more, overflows `int` (`CodecProofs.StringRoundTripExact`).
- A write that takes nothing at position 0 would send the header twice
  (`Connections.PartsAreOneFrameExactly`).
- A client that disconnects with a response pending can abort the server
  (`PipelineWitness.DisconnectAborts`), and with room in all queues and no write error
  nothing else can (`PipelineSafety.AbortsExactlyOnMiss`).
- The direct-write shortcut is safe: no pop of a response queue ever finds it empty
  (`PipelineInv.Reachable`), and no response is stranded
  (`PipelineProgress.NothingStranded`).

Where text and code disagree the model follows the code: the readme's closing of idle
connections is commented out (`src/Listener.cpp:63`), and the direct path of
`doRespond` ignores what `processResponse` returns (`src/Responder.cpp:78`), so a
write error there loses the response silently, while on the responder's path it aborts.

## Model

| member | source | states |
|---|---|---|
| Bytes.Int32OfLE32 | src/IntWritable.cpp:48-53 | an `int` written as raw memory and read back is the same, over the whole 32-bit range |
| Bytes.Size64OfLE64 | src/IntWritable.cpp:16-17 | the same for an 8-byte length |
| CodecProofs.StringRoundTripExact | src/Writable.cpp:22-72 | a string survives `writeString` and `readString` before any suffix if and only if it is non-empty, NUL-free and shorter than 2^31 - 1; at exactly that length `length+1` overflows `int` and the read throws |
| CodecProofs.CallRoundTrip | src/Call.cpp:16-62 | decoding an encoded request before any suffix recovers id, names and nested structure, and leaves exactly the suffix |
| CodecProofs.CallRoundTripExact | src/IntWritable.cpp:11-38 | the request itself comes back if and only if every integer in it, at any depth, is in -128..127 |
| CodecProofs.StreamRoundTrip | src/Call.cpp:16-62 | any sequence of requests sent back to back decodes to that sequence |
| CodecProofs.TruncationDetected | src/Call.cpp:55-59 | no proper prefix of a request whose last parameter is not a nested method is accepted |
| CodecProofs.CutAccepted | src/MethodWritable.cpp:44-48 | if the last parameter is a nested method some proper prefix is accepted |
| CodecProofs.TruncationSafeExactly | src/MethodWritable.cpp:36-48 | every proper prefix is rejected if and only if the last parameter is not a nested method |
| CodecProofs.BadLengthThrows | src/Writable.cpp:53-72 | a string length that is not positive throws, and leaves the rest unread |
| CodecProofs.UnknownClassReadsNothing | src/Method.cpp:34-43 | any class name but the two known ones makes an object that reads nothing |
| CodecProofs.CutMethodKeeps | src/MethodWritable.cpp:36-48 | a nested method cut short keeps its names and the parameter it was about to read, and its caller goes on |
| Response.ResponseRoundTrip | src/Client.cpp:91-119 | the client takes one response off the stream, whatever follows it |
| Response.ResponseCut | src/Client.cpp:91-125 | no proper prefix of a response is taken for one |
| Method.LowByteOfSum | src/IntWritable.cpp:33-34 | the low byte of a sum is the low byte of the sum of the low bytes, for all integers |
| Method.RemoteCreate | include/NameNode.h:19-26 | `create` sent, read, executed, answered and read again gives the sign-extended low byte of the true sum of any four ints, with no overflow on the server |
| Method.RemoteFsCreate | src/Method.cpp:14-17 | `create` of `FSNameSystem`, with any parameters, sent, read, executed, answered and read again gives 32 |
| Method.CallKnows | src/Method.cpp:10-31 | a method has a value if and only if it is `create` of `NameNode` or `FSNameSystem` |
| Method.RequestImage | src/MethodWritable.cpp:54-89 | the bytes of a request with an integer, a base and a nested parameter, one by one |
| Method.ResponseImage | src/Connection.cpp:38-43 | the bytes of a response, one by one |
| Method.RemoteCreateIsSumExactly | include/NameNode.h:19-26 | that is the true sum if and only if the sum is in -128..127 |
| CodecIO.Socket.WriteString | src/Writable.cpp:22-38 | sends the 4-byte length and the bytes, or nothing at all |
| CodecIO.Socket.ReadString | src/Writable.cpp:41-72 | yields and consumes what the string decoder does, or throws as it does |
| CodecIO.IntWritable.ReadFields | src/IntWritable.cpp:11-38 | the low byte of the payload, sign-extended; an exception leaves the value as it was |
| CodecIO.IntWritable.Write | src/IntWritable.cpp:41-63 | length 4 and the memory image |
| CodecIO.MethodWritable.ReadFields | src/MethodWritable.cpp:13-51 | fills names and parameters as far as the stream allows; -1 exactly if it ended early; equal to the functional decoder also in what is left unread |
| CodecIO.MethodWritable.Write | src/MethodWritable.cpp:54-89 | appends the encoding of names, count and parameters to the stream |
| CodecIO.ReadParams | src/Call.cpp:46-53 | the parameter loop reads what the recursive decoder reads, and keeps the parameter at which it stopped |
| CodecIO.ReadNew | src/Method.cpp:34-43 | the class name picks the object that reads itself; an unknown one reads nothing |
| CodecIO.WriteParams | src/MethodWritable.cpp:74-78 | the loop appends the parameters' encodings in order |
| CodecIO.WriteCall | include/Client.h:76-92 | the request goes out as its id and its fields |
| Connections.Call.Read | src/Call.cpp:16-62 | true exactly if the stream begins with a request; then id, names and parameters are its own and the rest is unread |
| Connections.Connection.ProcessResponse | src/Connection.cpp:26-81 | the bytes sent, the new position, the call's place at the back of the queue and the result 1, 0 or -1 for every write size, every point at which the socket breaks, a full queue and an illegal position |
| Connections.ResumedParts | src/Connection.cpp:43-62 | after the header, however the writes are split, the rest of the value follows without loss or repetition |
| Connections.PartsFromTheStart | src/Connection.cpp:38-43 | each write of 0 bytes at position 0 costs one more header |
| Connections.PartsAreOneFrameExactly | src/Connection.cpp:36-75 | the parts of a response make up one frame if and only if the first write takes at least one byte or the value is empty |
| BlockQueues.NothingLost | include/BlockQueue.h:46-135 | over any history by any threads the length never exceeds the capacity, and what was pushed is what was popped and what is held, as multisets |
| BlockQueues.FirstInFirstOut | include/BlockQueue.h:46-135 | with pushes at the back only, popped elements followed by the contents are the pushed elements in order |
| BlockQueues.FrontIsNext | include/BlockQueue.h:57-60 | what is pushed at the front is the next to be popped, whatever is pushed at the back meanwhile |
| BlockQueues.FrontAndBack | include/BlockQueue.h:57-60 | a push at the front and a pop leave the queue as it was |
| BlockQueues.BlockQueue.TryPush | include/BlockQueue.h:46-70 | succeeds if and only if there is room, and then the value stands before or behind what was there, as asked; otherwise nothing changes |
| BlockQueues.BlockQueue.TryPop | include/BlockQueue.h:87-111 | takes the front element and leaves the rest, or times out on an empty queue |
| BlockQueues.BlockQueue.Push | include/BlockQueue.h:73-84 | the retry loop sleeps exactly as long as the others leave the queue full; it gives up only if they do to the end, and otherwise pushes at the first room |
| BlockQueues.BlockQueue.Pop | include/BlockQueue.h:114-135 | the waiting loop waits exactly as long as the others leave the queue empty; it returns nothing only if they do to the end, and otherwise the front of the first contents |
| PipelineInv.BalancedStep | src/Responder.cpp:62-146 | every step of every thread keeps each response queue's length equal to its tokens plus the threads that owe it a pop |
| PipelineInv.NeverEmpty | src/Responder.cpp:103-107 | the `try_pop` in `processResponse` never finds the queue empty |
| PipelineInv.OnceStep | src/Handler.cpp:27-45 | every step keeps each call in exactly one place: call queue, a thread, its response queue, answered or failed |
| PipelineInv.Reachable | src/Responder.cpp:20-146 | for any number of handlers and any interleaving: balance, conservation, no empty pop, no call executed or answered twice, and an answered call was executed |
| PipelineInv.QueueRoom | src/Responder.cpp:64-67 | a thread holding a call finds the response queue and the call queue together shorter than the number of calls in flight |
| PipelineInv.NoQueueOverflows | src/Responder.cpp:64-88 | with at most 100 calls in flight no queue-full failure is reachable |
| PipelineFraming.SendingSplits | src/Connection.cpp:59-73 | a partial write sends a prefix of what remains and leaves the rest |
| PipelineFraming.ResponsesExact | src/Connection.cpp:26-81 | in every run what was sent for an answered call is exactly its id, 8-byte length and value, each byte once, and for any other call that is not given up a prefix of that |
| PipelineStream.ContiguousExactly | src/Connection.cpp:64-73 | a write keeps a connection's stream a sequence of whole responses and at most one beginning if and only if no other call of it is partly written at that moment |
| PipelineStream.ContiguousExactlyInRuns | src/Connection.cpp:64-73 | over any run without write errors every stream is such a sequence throughout if and only if every write met that condition |
| PipelineStream.ClientReads | src/Client.cpp:91-119 | off such a stream the client reads exactly the answered calls' ids and values in completion order |
| PipelineStream.WholeWritesReadBack | src/Connection.cpp:59-75 | if every write is complete this holds of every connection in every run |
| PipelineStream.SingleCallsReadBack | src/Connection.cpp:59-75 | so it does with one call at a time in a connection's response stage, however writes are split |
| PipelineWitness.ClientLosesStep | src/Connection.cpp:64-73 | a run in which two responses mix: the client completes the first value with bytes of the second response and then reads an id no call has |
| PipelineWitness.TwoCreatesAreEnough | src/Connection.cpp:64-73 | two calls of `create(5, 0, 0, 0)` are such a run |
| PipelineWitness.DisconnectAborts | src/Responder.cpp:35-41 | a run in which a connection is closed with a token of it about, and the lookup aborts the server with nothing answered |
| PipelineWitness.OtherCallFirst | src/Connection.cpp:64-73 | a run in which a call cut short, put back behind another, waits while the responder serves that one |
| PipelineOrder.QueuesAreBlockQueues | include/BlockQueue.h:46-135 | in every run the call queue, each response queue and the token queue are histories of a bounded queue, with pushes at the ends the program asks for |
| PipelineOrder.ResponsesInOrder | src/Responder.cpp:62-107 | from any state on, a connection's responses are popped in the order in which they were pushed or put back |
| PipelineOrder.CutCallWaitsItsTurn | src/Connection.cpp:64-73 | a call cut short is popped right after those that were waiting when it came back, in any run |
| PipelineOrder.CallsInOrder | src/Handler.cpp:27-28 | calls are taken in the order in which they were read |
| PipelineOrder.TokensInOrder | src/Responder.cpp:84 | posted tokens are taken in order, as long as none is put in front |
| PipelineOrder.CutConnectionIsNext | src/Responder.cpp:131-136 | the connection of a response cut short is the responder's next, whatever is posted meanwhile |
| PipelineProgress.MeasureStep | src/Responder.cpp:20-146 | a measure over bytes unsent, call stages, tokens and thread phases falls with every step of the server and rises with a new call by no more than its price |
| PipelineProgress.EveryRunEnds | src/Responder.cpp:20-146 | the number of server steps in any run is bounded by the calls read and the sizes of their values |
| PipelineProgress.BusyCanMove | src/Responder.cpp:62-146 | a busy thread can move unless it waits for a connection's mutex |
| PipelineProgress.StuckIsDrained | src/Responder.cpp:20-146 | where no step is enabled all queues are empty and every call is answered or given up |
| PipelineProgress.NothingStranded | src/Responder.cpp:73-91 | without write errors every call is then answered: no response is stranded |
| PipelineRefinement.Refines | src/Responder.cpp:73-91 | every step, by the shortcut or by tokens, is a step of a bag of unfinished responses of which some bytes of one are sent |
| PipelineRefinement.PipelineRefinesBag | src/Responder.cpp:62-146 | every run from the start is a behaviour of that bag, begun empty |
| PipelineSafety.AbortCauses | src/Responder.cpp:35-54 | the complete list of steps that can abort |
| PipelineSafety.OwedIsOpen | src/Responder.cpp:28-43 | the connection of a token is found, as long as none is closed with calls pending |
| PipelineSafety.NeverAborts | src/Responder.cpp:20-146 | without write errors, early closes and more than 100 calls in flight the server never aborts and loses no call |
| PipelineSafety.AbortsExactlyOnMiss | src/Responder.cpp:28-43 | without write errors and with at most 100 calls in flight, a run aborts if and only if the responder looks up a closed connection in it |
| ProgramOrder.InProgramOrder | src/Responder.cpp:20-146 | in every run the steps of every handler and of the responder are whole rounds of its loop and the beginning of one; where the thread is says how far that has come |
| ProgramOrder.ShortcutExactly | src/Responder.cpp:73-89 | in every run, whatever happens in between, a handler that looked at its connection's queue pops it next if and only if it saw a size of 1, and posts a token otherwise |
| Threads.Server.Others | src/Responder.cpp:60-61 | what other threads do between two steps is exactly what they tried and could do; it keeps every invariant, leaves this thread where it is and the call it holds as it is, sends nothing for that call, and takes nothing back |
| Threads.Server.AwaitMutex | src/Connection.cpp:29 | no thread is inside `processResponse` of the connection afterwards, and nothing changes for the waiting one |
| Threads.Server.ProcessResponse | src/Responder.cpp:99-146 | it takes the head of a queue that is never empty; if the socket breaks the call is given up, if it takes all that is left the call is answered, and if it takes less, those bytes go out, with the header at position 0, and call and token go back; false if and only if the call was given up |
| Threads.Server.WriteOrPost | src/Responder.cpp:77-89 | the handler serves the connection itself if and only if the queue's length was 1, and otherwise posts one token |
| Threads.Server.DoRespond | src/Responder.cpp:62-94 | push, size check, then the shortcut or the token, in this order and nothing else, under any interference, with the shortcut if and only if the size it saw was 1; false only with an abort |
| Threads.Server.Handle | src/Handler.cpp:21-46 | one round of take, execute and `doRespond` for every state, seen at the loop's turns, with a call in the queue; if the others are silent the queue is empty in the end |
| Threads.Server.Respond | src/Responder.cpp:20-57 | one round of token, lookup and `processResponse` for every state, seen at the loop's turns, with a token in the queue; if the others are silent no token is left in the end |
| AcceptanceInv.OwnedStep | include/Listener.h:90-131 | every step keeps each accepted connection in exactly one place: armed, with the listener, queued at or held by one reader, closed or dropped |
| AcceptanceInv.OneReaderEach | include/Listener.h:152-160 | no two readers have the same connection, queued or in hand |
| AcceptanceInv.TableSoundStep | src/Listener.cpp:68-117 | every step keeps `num_connections` equal to the size of `_connections`, with distinct indices and no closed connection in it |
| AcceptanceInv.IndexUnchanging | src/Listener.cpp:83-103 | a connection keeps its index until a reader closes it, and never returns after that |
| AcceptanceInv.FairStep | src/Listener.cpp:120-140 | as long as no reader refuses, every step keeps the readers' shares within one of each other |
| AcceptanceInv.Reachable | src/Listener.cpp:68-140 | for any positive number of readers and any interleaving: one owner each, a right count, listed connections, even shares |
| AcceptanceInv.SomeReaderTakesIt | src/Listener.cpp:124-139 | with at most 100 connections per reader at the start of `addToReader` the last reader it tries cannot refuse |
| AcceptanceInv.NeverAllFull | src/Listener.cpp:106-109 | then the readers-full abort is unreachable, in every run |
| Listeners.Listener.Others | src/Listener.cpp:68-117 | what readers do leaves the listener's choice of reader and the entry of the connection it holds as they are |
| Listeners.Listener.AddToReader | src/Listener.cpp:120-140 | tries each reader at most once, in turn, from the one after the last used; false exactly if all refused; otherwise the connection is last in the queue of the reader recorded as used |
| Listeners.Listener.HandleRead | src/Listener.cpp:68-117 | the connection keeps its index or gets the next one, the count is the table's size, and it goes to the next reader with room |
| Listeners.Listener.DoRead | include/Listener.h:90-131 | a failed read closes the connection and takes it out of table and count; otherwise the call is passed on and the socket re-armed or dropped |
| Clients.Connection.AddCall | src/Client.cpp:166-187 | ids are given out in order, and the keys of `_calls` are exactly those given out, each under its own call |
| Clients.Connection.RecvRespond | src/Client.cpp:85-127 | the value goes to the call the response names and to no other; an unknown id is found out before the value is read |
| Clients.Connection.Wait | include/Client.h:54-63 | what the caller gets is the first response with its id |
| Clients.Client.GetConnection | src/Client.cpp:289-335 | one connection per endpoint, reused if there is one; the call is registered with it under the next id |
| Clients.Client.DoCall | src/Client.cpp:260-286 | the request is sent whole under the id it was registered with, and the first response with that id comes back |
| EndToEndInv.NothingCloses | include/Listener.h:98-105 | with requests sent whole no read of a call fails, so no connection is closed |
| EndToEndInv.ReadFinds | src/Call.cpp:16-62 | what a reader reads from the byte stream is the client's oldest unread call, with its id |
| EndToEndInv.AnsweredOnce | src/Handler.cpp:27-45 | no two responses of a connection carry the same id |
| EndToEndInv.ReceiveFinds | src/Client.cpp:102-119 | a received response belongs to a call of that connection that is sent and has no value yet, and carries the value of that call's own request |
| EndToEndInv.InvStep | src/Client.cpp:85-286 | every step of clients, listener, readers, handlers and responder keeps all of this |
| EndToEndInv.OwnAnswer | src/Client.cpp:260-286 | in every run, with any numbers of threads, a call with a value was sent, executed exactly once and has the value of its own request; ids are those below the counter; no client meets an unknown id |
| EndToEndInv.ValueOnce | include/Client.h:66-73 | a value once set never changes, and no later response carries that call's id |
| EndToEndInv.RemoteSum | include/NameNode.h:19-26 | a completed `create`, from any thread in any run, has the sign-extended low byte of the sum of its arguments |
| EndToEndInv.RemoteFsCreate | src/Method.cpp:14-17 | a completed `create` of `FSNameSystem` has the value 32, in any run |
| EndToEndProgress.EveryCallAnswered | src/Client.cpp:260-286 | where nothing can move, nothing failed and no response is half written, every call is sent, executed exactly once and answered with its own value |
| EndToEndTermination.TotalStep | src/Responder.cpp:20-146 | one measure over clients, front and pipeline falls with every step that brings no connection or call and lets no connection go |
| EndToEndTermination.EveryRunEnds | src/Responder.cpp:20-146 | with n readers every run of the whole framework takes at most n+3 such steps per connection and n+66 per call |
| EndToEndSafety.NothingAborts | src/Responder.cpp:62-146 | with at most 100 calls in flight, at most 100 connections per reader and no error events, no queue-full, lookup, pop or unknown-id abort is reachable in client or server |
| EndToEndSafety.EveryCallerServed | src/Client.cpp:260-286 | with whole writes besides, when nothing can move any more every call ever made is executed exactly once and answered with the value of its own request |
| EndToEndSafety.EveryCallerServedInParts | src/Connection.cpp:59-75 | the same for writes of any size, if at the end no connection has two calls in the response stage |

## Left out

- Boost.Asio, sockets, threads, interrupts and time: sockets are byte sequences, the size of a write is chosen by the environment, and a timed wait is a step enabled or disabled by its condition. Condition-variable wake-ups are not modelled.
- `EndToEnd`: assumes what makes responses arrive as whole frames, namely no write errors and no write while another call of the connection is partly written, because without that the matching is false (`PipelineWitness.ClientLosesStep`); clients send well-formed calls of methods the server knows, answered by an `IntWritable`.
- Threads.Server.Handle: the steps of the other threads are given by the caller as lists of labels; a wait for a call ends when the lists do, where the source waits on. The same goes for `Respond`, the queue's `Push` and `Pop`, and the client's `Wait`, which ends where the stream does.
- Threads.Server.AwaitMutex: the others have one turn, of any length, while the mutex is taken; if it still is, the thread that holds it finishes its critical section at once, so that the method ends.
- CodecIO.IntWritable.ReadFields: a length of 2^64 - 1, where `length+1` wraps to 0 and the payload is read past the end of the buffer (`src/IntWritable.cpp:19-22`); the model reads on to the end of the stream and throws.
- Clients.Connection.Wait: the receiving thread's steps run inside the caller's loop; other callers of the same connection do not run meanwhile. Their interleaving is in `EndToEnd`.
- Clients.Connection.AddCall: ids from 2^31 on, where the counter overflows.
- Unknown methods and parameters of a wrong type: `Method::call` returns NULL, or a failed cast is dereferenced; the model's program is defined on known methods.
- Memory detail: the client's uninitialised `_sock`, the pointer into a temporary string at `src/Connection.cpp:52`, reads of `_done` without its lock, and the uninitialised int of a parameter that was cut off (0 in the model).
- Allocation failure: a length or a count too large to allocate throws at once in the source; in the model the read goes on to the end of the stream. Either way `Call::read` fails, except for the length named above, and except that inside a nested method, which swallows the exception, the source goes on with the bytes left unread.
- `recvRespond` at the end of the stream: its handler dereferences a null call when not even an id was read; the model reports a failure.
- `Listener::cleanup_connections`: never called.
- Server-side `Call::write`: unused, and its 4-byte length does not match what the client reads.
- The client's idle path (`waitForWork`, `markClosed`, `close`, `cleanupCalls`), failed connects and failed sends.
- Shutdown (`Server::stop`, the `waitToFinish` methods).
- Log, Utils, the two test programs, `main`, the RPC cache, Invocation and DataNodeProtocol.
