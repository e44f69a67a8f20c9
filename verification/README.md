# Verification of tmuduo

tmuduo is a C++ reactor network library: one event loop per thread, connections
that live on loops, byte buffers and codecs on top of them, timers, an HTTP
server, and an asynchronous logger. This project models its core in Dafny and
proves what the code relies on but nowhere states: protocol invariants over
every run and interleaving, results that do not depend on how bytes are cut
into reads and writes, round trips, and exact conditions where the code falls
short of what it is meant to do.

Each module follows one source file. The source's classes are Dafny classes
with the source's fields, updated in place. Where behaviour spans several calls
or threads, the module also has a step machine: a `State`, the steps with their
enabling conditions, `Exec` for one step, `Legal`/`Run` for runs, and the source's
assertions as `StepAsserts`. Every method of the class is proved to perform
exactly one or more steps of that machine (`View() == Exec(old(View()), step)`),
and the main theorems hold for all runs of the machine. Where a run leaves a record,
an `Account` computed from the list of steps alone says what the record must be, and
lemmas named `...Effect` say what a step does without naming the function that does
it. Nothing about the assertions is assumed of a run: the theorems derive that they
hold, or say exactly when, from what the environment and the callers do. A comment in
a model gives line numbers of the source file that the module follows.

The kernel, clocks and other threads are parameters: a write returns any number
of bytes up to what was offered or an error, poll returns at any time with any
events, waits end spuriously, and the scheduler interleaves as it likes.

## What is proved

- **Event loop** (`EventLoop`): no wakeup is lost, in any interleaving of any number
  of threads, exactly when `loop()` is entered with an empty queue, a wakeup under
  way, or `quit` set; functors run exactly once, in order, each in the batch after the
  one during which it was queued.
- **Byte streams** (`Buffer`, `Endian`, `LengthHeaderCodec`, `HttpRequest`,
  `HttpContext`, `HttpServer`, `TcpConnection`): the compacting buffer refines a byte
  queue; the message codec and the HTTP header parser give the same result for every
  segmentation; the codec's two directions undo each other; a request completes exactly
  on the well-formed messages and has their parts, and is refused exactly on a bad first
  line; output bytes, write interest, high-water marks and the
  graceful half-close hold over every run.
- **Connection life** (`TcpServer`, `Channel`, `Connector`): over the FIFO queues of the
  base loop and the I/O loops each connection is established, closed, erased and
  destroyed once and in that order, and no assertion fails, exactly when the generated
  names are distinct and no dispatch closes twice; distinctness is decided by the digits
  that fit in the name; a connector's sockets are each held, closed or handed over once,
  and its assertions hold exactly when each retry finds the previous channel reset and no
  stop() reaches a channel that is active in the iteration.
- **Timers** (`TimerQueue`): the timers are exactly those added, not cancelled and not
  spent, the two containers agree even inside a firing batch, the
  timerfd is never late, and the discipline that callbacks must keep is necessary.
- **Asynchronous logging** (`AsyncLogging`, `LogStream`): buffer ownership makes every
  assertion hold; all accepted lines are conserved, in order and whole; integers are
  printed canonically and read back, the minimum value included.
- **Tables and queues** (`PollPoller`, `EPollPoller`, `BoundedBlockingQueue`): the
  swap-remove table is a bijection, the user-side record mirrors the kernel's interest
  set, no waiter of the bounded queue is stuck, and none of its calls is lost.

## Where the code differs from its intent

The model follows the code; each difference below has a lemma that says exactly when
the code does meet the intent, or a concrete failing case.

- `tmuduo/net/TcpConnection.cc:117` buffers the front of a message whose first write was
  short, not its tail: `OutputStream` and `IntactIff` say when the stream is still right.
- `tmuduo/net/TcpConnection.cc:140` queues a half-close, which can run after the connection
  closed with bytes unsent: `HalfCloseDrainsIff`, `HalfCloseAfterCloseLoses`.
- `tmuduo/net/Channel.cc:52-74` can close a connection twice in one dispatch:
  `DispatchAssertsIff` and `DownTwiceIff` for the connection, `SafeIffNamesDistinct` and
  `DoubleCloseFails` for the server.
- `tmuduo/net/EventLoop.cc:105` does not wake the loop for functors the owner queues before
  `loop()`: `NoLostWakeupIff`.
- `tmuduo/net/TcpServer.cc:49-50` keeps 31 characters of a name: `NamesDistinctIff`,
  `SafeIffNamesDistinct`.
- `tmuduo/net/TimerQueue.cc:90` looks at one container and dereferences the other, and a
  callback that cancels a timer of its own batch breaks line 141: `AddInCallbackIff`,
  `CancelBreaksIff`.
- `tmuduo/net/http/HttpRequest.h:106` skips up to the first space of a header value, not
  past it, although `tests/HttpRequest_unittest.cc:24` expects the leading space removed:
  `StoredIsFieldValueIff`. As a consequence the `Connection` header never has an effect:
  `ClosesExactlyHttp10`.
- `tmuduo/net/http/HttpContext.cc:62-69` takes any line without a colon for the end of the
  header section, so that the headers behind it become the body.
- `tmuduo/net/http/HttpContext.cc:49-55` leaves the method of a refused line set:
  `RefusedLineTripsIff`.
- `tmuduo/net/poller/PollPoller.cc:66-75` never restores the descriptor of a channel that
  is enabled again: `PolledAsWantedIff`, `EnabledAgainIsNotPolled`. Unlike the epoll poller it
  does not reset the index of a removed channel either, so that enabling it again fails line
  62: `EnabledAfterRemovalFails`.
- `tmuduo/net/poller/EPollPoller.cc:78-88` registers a channel that is muted a second time
  again: `WatchedAsWantedIff`, `MutedTwiceIsWatched`.
- `tmuduo/net/Connector.cc:113` leaves the channel's reset to the functors of the iteration,
  which a retry timer can overtake when handlers take as long as the delay:
  `SocketsAreLinear`, `SlowIterationFails`.
- `tmuduo/net/Connector.cc:37-50` removes the channel when stop() is called, which fails
  `tmuduo/net/EventLoop.cc:152-156` from a handler of an iteration in which poll reported
  the channel: `SocketsAreLinear`, `StopOfActiveFails`.
- `tmuduo/net/Connector.cc:161`, run by a retry timer whose connect(2) is refused at once,
  adds a timer from inside a batch: `RetryCallbackIff`.
- `tmuduo/net/Connector.cc:40` leaves a retry timer behind when stopped, and
  `tmuduo/net/Connector.cc:22-29` fails when start() follows while it is left, or while
  connected as `tmuduo/net/TcpClient.cc:58` allows after a disconnect without retry:
  `StartIsSafeIff`, `RestartIsSafeIff`.

## Model

| member | source | states |
|---|---|---|
| EventLoop.NoLostWakeupIff | tmuduo/net/EventLoop.cc:64-141 | from loop entry, over all interleavings, the loop never sits in poll with work queued or quit set and no wakeup pending or owed, if and only if the queue was empty at entry, a wakeup was under way, or quit was set |
| EventLoop.RunKeepsWakeupInv | tmuduo/net/EventLoop.cc:85-141 | the inductive invariant behind it, from any state that satisfies it, over any run |
| EventLoop.SleepsOnFirstPoll | tmuduo/net/EventLoop.cc:100-108 | a functor queued by the owner before the loop is asleep in the queue at the first poll |
| EventLoop.QuittingNeverPolls | tmuduo/net/EventLoop.cc:64-66 | entered with quit set, the loop reaches neither poll nor anything but its end |
| EventLoop.ExactlyOnceInOrder | tmuduo/net/EventLoop.cc:100-141 | in every reachable state called ++ rest of the batch ++ queue is everything enqueued, in order, and a functor queued after k swaps is called in batch k+1 |
| EventLoop.BatchOnlyShrinks | tmuduo/net/EventLoop.cc:126-141 | until the next swap, whatever threads push, the batch loses exactly one element per call, so every batch is finite |
| EventLoop.EveryPushAccountedFor | tmuduo/net/EventLoop.cc:85-141 | from the steps alone: the functors called are the first ones pushed, one per call made, the others are in the batch or the queue, quit is set by quit() alone, and wakeups are owed and counted exactly for other threads and for the owner while it takes or runs a batch |
| EventLoop.EventLoop.ValidIsSafe | tmuduo/net/EventLoop.cc:58-141 | any use of the loop object is a run of the machine: nothing lost, nothing twice, every call in the right batch |
| EventLoop.EventLoop.QueueInLoop | tmuduo/net/EventLoop.cc:100-108 | the functor is at the queue's end, and the eventfd counter goes up exactly when the caller is another thread or a batch is running |
| EventLoop.EventLoop.RunInLoop | tmuduo/net/EventLoop.cc:92-98 | on the owner thread the functor runs at once and only what it queues is queued; elsewhere it is queued and a wakeup is pending |
| EventLoop.EventLoop.Quit | tmuduo/net/EventLoop.cc:85-90 | quit is set, and the counter goes up exactly for a caller on another thread |
| EventLoop.EventLoop.Wakeup | tmuduo/net/EventLoop.cc:110-116 | the counter grows by one and saturates, so that a refused write loses nothing |
| EventLoop.EventLoop.DoPendingFunctors | tmuduo/net/EventLoop.cc:126-141 | all functors queued before are called, in order, and nothing else; what they queue is left, with a wakeup pending |
| EventLoop.EventLoop.OneTurn | tmuduo/net/EventLoop.cc:65-78 | everything queued before the swap, by handlers on the owner or by other threads in poll or meanwhile, is called by the end of the turn, in order and whatever poll reported; what is queued while the batch runs is left for the next |
| EventLoop.EventLoop.Loop | tmuduo/net/EventLoop.cc:58-83 | the loop runs turns up to the first in which any thread, a handler or a functor quits, and what was called is what each turn owed, turn after turn |
| EventLoop.StopsBehindFirstQuit | tmuduo/net/EventLoop.cc:64-79 | the turn after which the loop stops is the first in which someone quits |
| Endian.FromToNetwork | tmuduo/net/Endian.h:15-37 | every integer of a width is read back from its network bytes, negative ones included |
| Endian.ToFromNetwork | tmuduo/net/Endian.h:15-37 | every byte string is the network form of the integer read from it |
| Endian.MostSignificantFirst | tmuduo/net/Endian.h:15-37 | byte i of the network form is the digit of the integer to base 256 with that weight, most significant first, for either sign |
| Buffer.FindCRLF | tmuduo/net/Buffer.h:61-64 | the result is a CR LF pair and no earlier position is; none means there is none |
| Buffer.Buffer.PerformAll | tmuduo/net/Buffer.h:73-281 | over every sequence of operations that the plain queue allows, with arrivals of any size cut into reads by the kernel, index bounds and assertions hold and the readable bytes are the queue's, with at least its headroom for prepending |
| Buffer.Buffer.ReadArrival | tmuduo/net/Buffer.cc:13-35 | bytes of any number, read in any cut that fits the room of each read, end up behind the readable bytes in order |
| Buffer.Buffer.Perform | tmuduo/net/Buffer.h:73-281 | each single operation takes a buffer that implements a queue to one that implements the queue after it |
| Buffer.Buffer.MakeSpace | tmuduo/net/Buffer.h:270-281 | called when short of room, as its one caller does, it keeps the readable bytes and makes the room; the assertion on the reader index follows |
| Buffer.Buffer.EnsureWritableBytes | tmuduo/net/Buffer.h:238-243 | there is room afterwards, the readable bytes are the same, and the reader index is kept or falls back to the reserved front |
| Buffer.Buffer.Append | tmuduo/net/Buffer.h:132-136 | the data follows the readable bytes |
| Buffer.Buffer.Prepend | tmuduo/net/Buffer.h:231-236 | the data precedes the readable bytes, which are unharmed |
| Buffer.Buffer.Retrieve | tmuduo/net/Buffer.h:73-79 | the front is dropped, and everything when asked for more than there is |
| Buffer.Buffer.RetrieveAsString | tmuduo/net/Buffer.h:117-122 | what is returned followed by what remains is what was readable |
| Buffer.Buffer.Shrink | tmuduo/net/Buffer.h:249-254 | the readable bytes survive the swap with a fresh buffer, with the reserve asked for |
| Buffer.Buffer.ReadFd | tmuduo/net/Buffer.cc:13-35 | whatever the split between free space and the overflow block, the bytes delivered are appended in order, and a failed read changes nothing |
| Buffer.Buffer.ReadInt | tmuduo/net/Buffer.h:161-183 | the integer returned is the one whose encoding stood at the front, which is consumed |
| Buffer.Buffer.PeekInt | tmuduo/net/Buffer.h:185-210 | the integer encoded by the first bytes |
| Buffer.AppendOpsWrite | tmuduo/net/Buffer.h:138-155 | appending integers of mixed widths puts their encodings behind the readable bytes, in order |
| Buffer.AppendedIntsReadBack | tmuduo/net/Buffer.h:138-183 | integers appended in any mix of widths, with anything behind them, are read back equal and in order |
| LengthHeaderCodec.DecodeContinues | examples/chat/codec.h:18-37 | decoding a stream is decoding its front and then what that left over together with the rest |
| LengthHeaderCodec.FeedIsDecode | examples/chat/codec.h:18-37 | for every cut of a stream into arrivals the messages, the bytes left and the verdict are those of one call on the whole |
| LengthHeaderCodec.NothingAfterInvalid | examples/chat/codec.h:24-27 | after a length out of range no later arrival delivers a message, and the buffer keeps every byte |
| LengthHeaderCodec.DecodeEncodeAll | examples/chat/codec.h:18-46 | any list of messages of at most 65536 bytes is decoded from its frames exactly, with nothing left |
| LengthHeaderCodec.EncodeAllDecode | examples/chat/codec.h:18-46 | for every byte stream, the frames of the messages delivered followed by the bytes left are the stream |
| LengthHeaderCodec.RoundTripIff | examples/chat/codec.h:24-46 | a message of any size survives sending and decoding if and only if it has at most 65536 bytes, the int32 truncation of the size included |
| LengthHeaderCodec.DecodeIff | examples/chat/codec.h:18-46 | every stream is cut in just one way into frames of at most 65536 bytes and a rest with no whole frame in front; those messages are delivered, the rest is kept, and the stream is invalid exactly if the rest begins with a length that is negative or too large |
| LengthHeaderCodec.DeliveredUnderAnySegmentation | examples/chat/codec.h:18-46 | messages within the limit, sent as frames and cut anywhere, are delivered exactly, in order, with nothing left |
| LengthHeaderCodec.LengthHeaderCodec.OnMessage | examples/chat/codec.h:18-37 | the loop terminates, delivers what the stream decodes to, leaves the rest in the buffer, and shuts down exactly on a bad length |
| LengthHeaderCodec.LengthHeaderCodec.Send | examples/chat/codec.h:39-46 | the buffer built by append and prepend holds the frame |
| LengthHeaderCodec.LengthHeaderCodec.Receive | tmuduo/net/TcpConnection.cc:166-171 | scatter reads of a stream, in any cut that fits the room of each read, with the codec after each, deliver and leave what one decoding of the whole does |
| LogStream.DecimalRoundTrip | tmuduo/base/LogStream.cc:20-38 | the text of every integer is canonical (no leading zero, no minus zero) and parses to the integer |
| LogStream.ParseRoundTrip | tmuduo/base/LogStream.cc:20-38 | every canonical text is the text of its value, so each value has one |
| LogStream.HexRoundTrip | tmuduo/base/LogStream.cc:40-54 | the hexadecimal text of every natural number is canonical and parses to it |
| LogStream.CanonicalIsNumeral | tmuduo/base/LogStream.cc:20-54 | in both bases a canonical numeral is the numeral of its value |
| LogStream.DecimalFits | tmuduo/base/LogStream.cc:87-94 | every signed or unsigned 64-bit value with its sign and terminator needs at most 21 of the 32 bytes checked for |
| LogStream.HexFits | tmuduo/base/LogStream.cc:136-146 | every 64-bit pointer with prefix and terminator needs at most 19 of the 32 bytes |
| LogStream.SplitLastDigit | tmuduo/base/LogStream.cc:12-29 | truncating division and the mirrored digit table give the last digit's character and the magnitude without it, for values of either sign |
| LogStream.PutDigits | tmuduo/base/LogStream.cc:25-29 | the do-while loop writes the magnitude's digits backwards and touches nothing else |
| LogStream.ReverseRange | tmuduo/base/LogStream.cc:35-35 | the range is reversed in place and the rest of the array is kept |
| LogStream.Convert | tmuduo/base/LogStream.cc:20-38 | the array holds the canonical decimal text and its terminator at the cursor, the rest is kept, and the length is the text's |
| LogStream.ConvertHex | tmuduo/base/LogStream.cc:40-54 | the same for the hexadecimal text |
| LogStream.FixedBuffer.Append | tmuduo/base/LogStream.h:26-32 | text is appended whole when there is strictly more room, else nothing changes |
| LogStream.FixedBuffer.FormatInteger | tmuduo/base/LogStream.cc:87-94 | with 32 bytes free the canonical text of any 64-bit value is appended, else nothing |
| LogStream.FixedBuffer.FormatPointer | tmuduo/base/LogStream.cc:136-146 | with 32 bytes free "0x" and the hexadecimal text are appended, else nothing |
| Channel.DispatchInOrder | tmuduo/net/Channel.cc:52-74 | for every mask of events the callbacks called are exactly those triggered, each once, in the order close, error, read, write |
| Channel.Channel.HandleEventWithGuard | tmuduo/net/Channel.cc:52-74 | the four tests in sequence perform that dispatch |
| TcpConnection.OutputStream | tmuduo/net/TcpConnection.cc:77-203 | over every run, bytes taken by the kernel and the backlog have together as many bytes as the messages taken over, and are those messages if and only if every message with a short first write has its unsent tail equal to its front |
| TcpConnection.StreamIsMessagesIff | tmuduo/net/TcpConnection.cc:110-121 | the emitted stream is the concatenation of the messages exactly when each was emitted intact |
| TcpConnection.IntactIff | tmuduo/net/TcpConnection.cc:117-117 | a message is emitted unharmed exactly when its first write took nothing, everything, or left a tail equal to the message's front |
| TcpConnection.StreamConserved | tmuduo/net/TcpConnection.cc:77-203 | without short first writes, over every run, taken bytes and backlog are the messages sent while connected, in order, but for those whose direct write found the pipe broken, and as many bytes are taken as the answers of write report; both computed from the events |
| TcpConnection.EverythingAccountedFor | tmuduo/net/TcpConnection.cc:38-232 | over every run, from the calls and the kernel's answers alone: which messages are taken over and how much of each is written directly, how many bytes are taken and how many are left, which half-closes are pending, and exactly which up, down, high-water and write-complete callbacks and half-closes there were, in order |
| TcpConnection.ShortFirstWriteCorrupts | tmuduo/net/TcpConnection.cc:117-117 | the concrete failure: sending two bytes of which one is taken puts the first byte on the wire twice |
| TcpConnection.GracefulHalfClose | tmuduo/net/TcpConnection.cc:77-216 | in every run, second closes included, write interest is on exactly while a backlog remains on an open connection, the write side is shut down only when drained or after the connection closed, never written afterwards, and a requested half-close is done or still owed |
| TcpConnection.HalfCloseDrainsIff | tmuduo/net/TcpConnection.cc:124-144 | over every run, every shutdown of the write side finds nothing left to send if and only if no queued half-close runs after the connection closed with a backlog |
| TcpConnection.HalfCloseAfterCloseLoses | tmuduo/net/TcpConnection.cc:130-144 | the concrete failure: a byte unsent, forceClose, a close by the peer, and the queued half-close then finds the byte |
| TcpConnection.StepKeepsInterestInv | tmuduo/net/TcpConnection.cc:38-232 | the inductive invariant of state, interest, backlog and pending half-closes, for every event |
| TcpConnection.StepKeepsHalfCloseInv | tmuduo/net/TcpConnection.cc:124-203 | every event keeps the order of write attempts and shutdowns in the log |
| TcpConnection.DrainCompletesShutdown | tmuduo/net/TcpConnection.cc:181-203 | the write that drains a disconnecting connection's backlog shuts the write side down at once |
| TcpConnection.DrainBetweenHighWaters | tmuduo/net/TcpConnection.cc:111-121 | in every run two high-water callbacks have a drain from the mark to below it between them |
| TcpConnection.DispatchAssertsIff | tmuduo/net/TcpConnection.cc:205-210 | in one dispatch on an open connection the state assertion of handleClose holds throughout if and only if the dispatch does not close twice (hangup without readable data, urgent data or a peer hangup, and end of stream) or the DOWN callback called shutdown() in between |
| TcpConnection.DownTwiceIff | tmuduo/net/Channel.cc:52-74 | one dispatch reports the connection down more than once if and only if it closes twice |
| TcpConnection.DispatchEffect | tmuduo/net/Channel.cc:52-74 | from the mask and the kernel's answers: one down for a hangup without readable data and one for the end of the stream, and what write reports leaves the front of the backlog if neither came first |
| TcpConnection.TcpConnection.TryWrite | tmuduo/net/TcpConnection.cc:88-105 | the direct write counts what was taken, completes an entire write, and reports exactly a broken pipe as an error |
| TcpConnection.TcpConnection.SendInLoop | tmuduo/net/TcpConnection.cc:77-122 | the direct write, the backlog, the mark and the interest are those of the step, for every answer of write |
| TcpConnection.TcpConnection.HandleWrite | tmuduo/net/TcpConnection.cc:181-203 | one write of the backlog, the drain, and the completed half-close are those of the step |
| TcpConnection.TcpConnection.KeepRest | tmuduo/net/TcpConnection.cc:110-121 | what is left of a message joins the backlog, with the mark's callback when it is crossed |
| TcpConnection.TcpConnection.Shutdown | tmuduo/net/TcpConnection.cc:124-135 | any state moves to disconnecting, and the half-close is tried exactly from the connected state |
| TcpConnection.TcpConnection.ForceClose | tmuduo/net/TcpConnection.cc:137-144 | a half-close is queued from connected and disconnecting, and other states are restored |
| TcpConnection.TcpConnection.ForceCloseWithDelay | tmuduo/net/TcpConnection.cc:146-153 | a timer is scheduled from connected and disconnecting, and other states are restored |
| TcpConnection.TcpConnection.ConnectionEstablished | tmuduo/net/TcpConnection.cc:224-232 | the connection is connected and reading, and its UP callback has been made |
| TcpConnection.TcpConnection.HandleClose | tmuduo/net/TcpConnection.cc:205-216 | the connection is disconnected with no interest, and its DOWN callback has been made |
| TcpServer.LifecycleInOrder | tmuduo/net/TcpServer.cc:46-82 | in every run with distinct names and no dispatch that closes twice, no assertion fails, each connection's history is a prefix of accepted, up, down, erased, destroyed, it is in the table until erased, and the functor it waits for is queued exactly once |
| TcpServer.StepKeepsInv | tmuduo/net/TcpConnection.cc:205-242 | the inductive invariant over functors, accepts, dispatches that close at most once and user shutdowns, with every assertion met |
| TcpServer.SafeIffNamesDistinct | tmuduo/net/TcpServer.cc:48-82 | for any set of event masks and read answers that has the ordinary end of stream, no run that accepts at most n connections fails an assertion if and only if the first n names are distinct and, unless n is zero, none of the masks closes twice |
| TcpServer.DoubleCloseFails | tmuduo/net/TcpConnection.cc:205-210 | one connection and one dispatch that closes it twice fail the assertion of handleClose, whatever the names |
| TcpServer.SecondEraseFails | tmuduo/net/TcpServer.cc:74-79 | of two open connections under one name the second to close finds nothing to erase and fails the assertion |
| TcpServer.CollisionFails | tmuduo/net/TcpServer.cc:46-79 | if two connections get one name, some run that accepts no more than these fails an assertion |
| TcpServer.NamesDistinctIff | tmuduo/net/TcpServer.cc:49-52 | the first n names are distinct if and only if n is at most one or the n-th number still fits in the 31 characters kept |
| TcpServer.NumberTooLongCollides | tmuduo/net/TcpServer.cc:49-52 | a number that does not fit takes the name of the number without its last digit |
| TcpServer.SafeForIpv4 | tmuduo/net/TcpServer.cc:46-82 | with any IPv4 endpoint and dispatches that close at most once the first 99,999,999 connections are safe |
| TcpServer.DispatchDownIff | tmuduo/net/TcpConnection.cc:205-216 | a dispatch takes its connection down if and only if its mask has a hangup without readable, or readable, urgent or peer hangup and the read finds the end of the stream; the connection then stops watching and is removed, at once or by way of the base loop, and otherwise nothing changes |
| TcpServer.FunctorEffect | tmuduo/net/TcpServer.cc:74-82 | a functor takes its connection one milestone on, and only a removal touches the table, passing the destruction to the connection's own loop |
| TcpServer.AcceptEffect | tmuduo/net/TcpServer.cc:46-68 | a new connection is in the table under the next name, up at once on the base loop and queued on another |
| TcpServer.ShutdownEffect | tmuduo/net/TcpConnection.cc:124-135 | a user's shutdown changes that connection's state and nothing else |
| TcpServer.TcpServer.NewConnection | tmuduo/net/TcpServer.cc:46-68 | a connection under the next number's name is entered in the table, and established at once on the base loop or queued on its own |
| TcpServer.TcpServer.RemoveConnectionInLoop | tmuduo/net/TcpServer.cc:74-82 | exactly one entry goes, the connection's, and its destruction is queued on its loop |
| TcpServer.TcpServer.HandleClose | tmuduo/net/TcpConnection.cc:205-216 | the close is recorded and passed to the base loop, run or queued |
| TcpServer.TcpServer.HandleEvent | tmuduo/net/Channel.cc:52-74 | a dispatch calls handleClose as often as its mask and the read say |
| TcpServer.TcpServer.ConnectionDestroyed | tmuduo/net/TcpConnection.cc:234-242 | the channel leaves its poller, with the DOWN callback only if still connected |
| TcpServer.TcpServer.RunOrQueue | tmuduo/net/EventLoop.cc:92-98 | a functor runs at once on its own loop and is queued last on another |
| TcpServer.TcpServer.RunFront | tmuduo/net/EventLoop.cc:136-138 | a loop calls the oldest functor of its queue |
| AsyncLogging.LogConserved | tmuduo/base/AsyncLogging.cc:18-101 | in every interleaving no assertion fails and no moved-from pointer is used; decided, unwritten, trimmed, queued and current buffers hold exactly the accepted lines, in order and whole; the file's chunks are the written buffers and its notices count the dropped ones |
| AsyncLogging.StepKeepsOwnership | tmuduo/base/AsyncLogging.cc:44-99 | which pointers are set at each point of the writer: all assertions follow from it at every step of producers and writer |
| AsyncLogging.AppendConserves | tmuduo/base/AsyncLogging.cc:18-32 | an append adds its line at the end of the pipeline, or nothing if no empty buffer could take it |
| AsyncLogging.WriterKeepsPipeline | tmuduo/base/AsyncLogging.cc:44-99 | the writer's swaps, trims, writes and reuse of buffers neither lose nor reorder anything |
| AsyncLogging.StepKeepsFileInv | tmuduo/base/AsyncLogging.cc:64-76 | the file's chunks stay the written buffers and its notices announce exactly the dropped ones, each notice more than 23 |
| AsyncLogging.FileIsPrefixUnlessNotified | tmuduo/base/AsyncLogging.cc:64-76 | while no notice has been written, the file's bytes are those of a prefix of the accepted lines |
| AsyncLogging.EveryLineAccountedFor | tmuduo/base/AsyncLogging.cc:18-99 | accepted are exactly the lines appended that are shorter than a buffer, in append order; whenever the writer is between batches, the lines in written and dropped buffers are exactly those accepted before it last took the buffers |
| AsyncLogging.TrimIff | tmuduo/base/AsyncLogging.cc:62-71 | a batch is cut if and only if it has more than 25 buffers; the first two stay and the notice counts the others |
| AsyncLogging.RotatesIff | tmuduo/base/AsyncLogging.cc:18-32 | the current buffer is queued exactly when the line does not fit with a byte to spare, and the line is then the first of the next one |
| AsyncLogging.AsyncLogging.Append | tmuduo/base/AsyncLogging.cc:18-32 | the producer's step on the three shared fields |
| AsyncLogging.AsyncLogging.CollectBuffers | tmuduo/base/AsyncLogging.cc:54-60 | the writer's critical section, with its assertions met |
| AsyncLogging.AsyncLogging.TrimBacklog | tmuduo/base/AsyncLogging.cc:62-71 | a batch over 25 is announced and cut to its first two buffers |
| AsyncLogging.AsyncLogging.WriteBuffers | tmuduo/base/AsyncLogging.cc:73-81 | the whole batch goes to the file in order and at most two buffers are kept |
| AsyncLogging.AsyncLogging.RecycleBuffers | tmuduo/base/AsyncLogging.cc:83-97 | both spare buffers are back and empty, and the assertions on the batch hold |
| AsyncLogging.AsyncLogging.WaitForBuffers | tmuduo/base/AsyncLogging.cc:45-53 | the writer waits only with nothing to collect, its assertions met |
| AsyncLogging.AsyncLogging.WriterTurn | tmuduo/base/AsyncLogging.cc:44-99 | one turn of the writer, with any lines appended during its wait: everything collected is in the file or announced as dropped, the shared buffers are fresh, and all assertions hold |
| AsyncLogging.AsyncLogging.ValidIsSafe | tmuduo/base/AsyncLogging.cc:18-101 | any use of the logger object keeps ownership, conservation and the file's accounts |
| HttpRequest.MethodNames | tmuduo/net/http/HttpRequest.h:33-71 | a name is recognised as a method if and only if it is that method's own name, which contains no space |
| HttpRequest.StoredIsFieldValueIff | tmuduo/net/http/HttpRequest.h:103-113 | the value stored is the trimmed field value of section 3.2 of RFC 7230 if and only if the field is blank |
| HttpRequest.StoredValueShape | tmuduo/net/http/HttpRequest.h:106-111 | a stored value is empty or begins with white space |
| HttpRequest.StoredValueIff | tmuduo/net/http/HttpRequest.h:103-113 | every text behind the colon is cut in just one way into a word, a part that begins with white space and does not end with it, and white space; that part is the stored value |
| HttpRequest.AddHeader | tmuduo/net/http/HttpRequest.h:103-113 | the two loops store, under the name before the colon, the text from the first space with trailing space removed |
| HttpContext.AcceptedIff | tmuduo/net/http/HttpContext.cc:8-40 | a line is accepted if and only if it is one of the five methods, a space, a target without spaces, a space and version 1.0 or 1.1: the form of section 3.1.1 of RFC 7230, except that an empty target is accepted too |
| HttpContext.ParseRendered | tmuduo/net/http/HttpContext.cc:8-40 | a rendered request line is parsed into its method, version, path and query |
| HttpContext.AcceptedIsRendered | tmuduo/net/http/HttpContext.cc:8-40 | an accepted line is the rendering of what was parsed from it |
| HttpContext.MessageIsParsed | tmuduo/net/http/HttpContext.cc:42-84 | a message made of a method, target and version, any header lines, a line without a colon and any body completes in one call: the request has exactly these parts, the last of several headers of one name counting, and the buffer is empty |
| HttpContext.CompletesIff | tmuduo/net/http/HttpContext.cc:42-84 | the first call completes a request if and only if the input is such a message |
| HttpContext.RefusedIff | tmuduo/net/http/HttpContext.cc:46-59 | the first call refuses the input if and only if its first line is complete and not a method, a target without spaces and a version |
| HttpContext.ParseContinues | tmuduo/net/http/HttpContext.cc:42-84 | parsing a longer input is parsing its front and then going on from there, refused and completed inputs included |
| HttpContext.FeedIsParse | tmuduo/net/http/HttpContext.cc:42-84 | for every cut of every input the outcome is that of one call on the whole, receive time apart; input after completion is the rest of the whole's body |
| HttpContext.HeaderSectionUnderAnyCut | tmuduo/net/http/HttpContext.cc:42-84 | for every cut of a well-formed message without a body into arrivals, all calls but the last succeed without completing, and the last gives a request with the parts of the message |
| HttpContext.GotAllNeverEnds | tmuduo/net/http/HttpContext.cc:45-82 | an iteration changes nothing and goes on if and only if the parser was entered in its final state |
| HttpContext.NeverRefusedLater | tmuduo/net/http/HttpContext.cc:60-82 | past the request line parsing never fails |
| HttpContext.RefusedLineTripsIff | tmuduo/net/http/HttpContext.cc:46-59 | after a refusal a further call trips the assertion in setMethod if and only if the refused line began with a method name |
| HttpContext.ParseKeepsHeadersSpaced | tmuduo/net/http/HttpContext.cc:60-74 | after any parse every stored header value is empty or begins with white space |
| HttpContext.HttpContext.ProcessRequestLine | tmuduo/net/http/HttpContext.cc:8-40 | the request and the verdict are those of the line, whatever was set before a later part failed |
| HttpContext.HttpContext.ParseRequest | tmuduo/net/http/HttpContext.cc:42-84 | outside the final state the loop terminates with the context, the buffered bytes and the verdict of the parser function |
| HttpContext.HttpContext.Reset | tmuduo/net/http/HttpContext.h:28-32 | the context is as new |
| HttpServer.ParseKeepsReady | tmuduo/net/http/HttpServer.cc:39-51 | a parse that succeeds without completing leaves a context that the next arrival may be parsed in |
| HttpServer.ClosesExactlyHttp10 | tmuduo/net/http/HttpServer.cc:53-56 | after any parse the server asks to close if and only if the request is HTTP/1.0, whatever its Connection header |
| HttpServer.MessageIsAnswered | tmuduo/net/http/HttpServer.cc:39-65 | from bytes to response: a well-formed message is answered once, with its parts; the callback is offered to close after HTTP/1.0 only, and the shutdown follows exactly if it leaves the flag set |
| HttpServer.HttpServer.OnMessage | tmuduo/net/http/HttpServer.cc:39-51 | whenever the assertion on the method holds, also after a refusal, refusal, response and reset follow the parse, and the context is never left in the final state |
| HttpServer.ReadyMeetsAsserts | tmuduo/net/http/HttpServer.cc:39-45 | in a ready context whatever arrives meets the assertion on the method |
| HttpServer.HttpServer.OnRequest | tmuduo/net/http/HttpServer.cc:53-65 | one response is sent, followed by a shutdown exactly if the callback left the close flag set |
| TimerQueue.HowMuchTimeFromNow | tmuduo/net/TimerQueue.cc:22-31 | seconds and nanoseconds are in range, exact, never zero and at least 100 microseconds |
| TimerQueue.ExpiredAreTheDueOnes | tmuduo/net/TimerQueue.cc:119-131 | the entries taken are exactly those due, in ascending order, and the others stay |
| TimerQueue.TimersStayConsistent | tmuduo/net/TimerQueue.cc:87-161 | in every disciplined run, callbacks adding and cancelling included, no assertion fails, the containers agree also inside a batch, the timerfd is never late, and one-shot timers fire at most once and none early |
| TimerQueue.BetweenEvents | tmuduo/net/TimerQueue.cc:87-161 | between events the entries are exactly the timers' (expiration, id) pairs and the timerfd is set for no later than the earliest expiration or the last reset plus 100 microseconds |
| TimerQueue.TimersAreThoseAdded | tmuduo/net/TimerQueue.cc:87-161 | after any disciplined run the timers are exactly those added in it, not cancelled, and not one-shots that have fired; each is as it was added until it fires, and has its entry or its place in the batch in progress |
| TimerQueue.AddEffect | tmuduo/net/TimerQueue.cc:87-97 | every timer and entry stays, the new ones join them, and the timerfd is armed for the new expiration, or 100 microseconds from now, exactly if it comes before every entry |
| TimerQueue.CancelEffect | tmuduo/net/TimerQueue.cc:103-117 | that timer and its entry go, and nothing else changes |
| TimerQueue.FinishEffect | tmuduo/net/TimerQueue.cc:145-150 | a one-shot timer goes when its callback returns, a repeating one is due an interval later, and the others stay |
| TimerQueue.EndEffect | tmuduo/net/TimerQueue.cc:154-160 | at the end of a batch the timerfd is armed for the earliest entry, or 100 microseconds from now, and nothing else changes |
| TimerQueue.StepKeepsInv | tmuduo/net/TimerQueue.cc:87-161 | the inductive invariant for every step, assertions met |
| TimerQueue.BatchFiresOnceInOrder | tmuduo/net/TimerQueue.cc:119-151 | under any disciplined callbacks a batch takes exactly the entries due, in order, and when it can end each of them has fired exactly once, in that order, and nothing else has |
| TimerQueue.BatchEffect | tmuduo/net/TimerQueue.cc:140-151 | with callbacks that leave the queue alone, besides, one-shot timers of the batch leave, repeating ones get a new expiration, other timers are untouched |
| TimerQueue.FireAllIsRun | tmuduo/net/TimerQueue.cc:140-151 | a batch with such callbacks is a disciplined run that leads to that effect |
| TimerQueue.CancelBreaksIff | tmuduo/net/TimerQueue.cc:103-151 | cancelling from a callback leaves a batch element without its timer if and only if the timer is in the batch |
| TimerQueue.BrokenBatchNeverEnds | tmuduo/net/TimerQueue.cc:140-151 | such a batch never ends without failing an assertion first |
| TimerQueue.AddInCallbackIff | tmuduo/net/TimerQueue.cc:87-97 | adding from a callback dereferences an entry if and only if one is left outside the batch |
| TimerQueue.AddFromLastCallbackFails | tmuduo/net/TimerQueue.cc:90-90 | the concrete failure, as a run from the empty queue: the only timer comes due and its callback adds a timer |
| TimerQueue.TimerQueue.ResetTimer | tmuduo/net/TimerQueue.cc:42-52 | the timerfd is armed for the expiration, or 100 microseconds from now if that is sooner |
| TimerQueue.TimerQueue.AddTimerInLoop | tmuduo/net/TimerQueue.cc:87-97 | both containers gain the timer, and the timerfd is reset exactly when it is the earliest |
| TimerQueue.TimerQueue.CancelInLoop | tmuduo/net/TimerQueue.cc:103-117 | the timer is in neither container afterwards and the invariant holds |
| TimerQueue.TimerQueue.GetExpired | tmuduo/net/TimerQueue.cc:119-131 | what is returned followed by what remains is the old set, split exactly at now |
| TimerQueue.TimerQueue.HandleRead | tmuduo/net/TimerQueue.cc:133-161 | with any disciplined callbacks, adding and cancelling timers included, every due entry fires exactly once, in order, the containers follow the steps, the timerfd is rearmed, and the invariant is kept |
| TimerQueue.TimerQueue.FireTimer | tmuduo/net/TimerQueue.cc:140-151 | one turn of the firing loop, whatever its disciplined callback does |
| TimerQueue.TimerQueue.PerformAll | tmuduo/net/TimerQueue.cc:87-161 | the object performs any disciplined run and keeps the invariant |
| Connector.SocketsAreLinear | tmuduo/net/Connector.cc:37-166 | for every mask of events, kernel answer and interleaving with stop, no assertion fails, the loop's on removing a channel included, if and only if each retry that gets under way finds the previous channel reset, as it does if every reset runs within 500 ms, and no stop reaches a connecting channel that is active in the iteration; then every socket is held, closed once or handed over once, at most one retry waits, and retry k waits min(500 * 2^k, 30000) ms |
| Connector.LegalIff | tmuduo/net/Connector.cc:27-50 | the same equivalence and the invariant, from any state that satisfies it |
| Connector.StopOfActiveFails | tmuduo/net/EventLoop.cc:149-159 | the failing family: from any attempt whose channel poll has reported, a stop() by some handler of the iteration fails the assertion on the active list, though every retry is timely and every reset prompt |
| Connector.AttemptUnderWay | tmuduo/net/Connector.cc:99-106 | both failing families are met: an attempt from any quiet state, reported by the next poll |
| Connector.RetryCallbackIff | tmuduo/net/Connector.cc:155-161 | what a retry's callback asks of the timer queue in a firing batch meets the assertions there if and only if connect(2) is not refused at once while still wanted, or some entry is left outside the batch |
| Connector.DestructionIsSafeIff | tmuduo/net/Connector.cc:17-20 | the destructor's assertion holds if and only if no attempt is under way and no reset is to run |
| Connector.PromptIsTimely | tmuduo/net/Connector.cc:108-119 | resets that run within the shortest retry delay of being queued are never overtaken by a retry |
| Connector.SlowIterationFails | tmuduo/net/Connector.cc:99-101 | the failing family: from any attempt under way, an error, handlers that take as long as the delay, and the retry finds the channel still there |
| Connector.StepKeepsLinear | tmuduo/net/Connector.cc:52-166 | every step keeps each socket in exactly one place |
| Connector.StepKeepsChannel | tmuduo/net/Connector.cc:99-119 | every step whose assertions hold keeps channel, state, deferred reset and retry timer consistent |
| Connector.StepKeepsDelays | tmuduo/net/Connector.cc:155-166 | every step keeps the doubling and capped sequence of delays |
| Connector.StartIsSafeIff | tmuduo/net/Connector.cc:22-35 | start() is free of failed assertions, at once and in every continuation with timely retries and stops aside, for every answer of the kernel, if and only if it is called while disconnected with no reset to run and no retry timer left |
| Connector.RestartIsSafeIff | tmuduo/net/Connector.cc:91-97 | restart() likewise if and only if no attempt is under way, no reset to run and no retry timer left |
| Connector.ErrorThenWrite | tmuduo/net/Connector.cc:121-153 | with error and writable in one dispatch the socket is closed once and not handed over |
| Connector.DispatchEffect | tmuduo/net/Connector.cc:121-166 | a dispatch hands its socket over if and only if the mask is writable without error or invalid, the socket is fine, and the connection is still wanted; an unwanted success and every failure close it, a failure still wanted is retried after the delay, and other masks leave it |
| Connector.EverySocketAccountedFor | tmuduo/net/Connector.cc:22-166 | after every run without failed assertions, from the calls, answers and events alone: the attempt under way, the sockets handed over and those closed, in order, and when the waiting retry is due |
| Connector.ResetRunsThisIteration | tmuduo/net/Connector.cc:108-119 | a reset queued while events are handled runs before the next poll and leaves no channel |
| Connector.Connector.CloseAndRetry | tmuduo/net/Connector.cc:155-166 | the socket is closed, and a retry is scheduled with the current delay exactly if still wanted |
| Connector.Connector.TryConnect | tmuduo/net/Connector.cc:52-89 | the new socket ends in a channel, closed with a retry, or closed for good |
| Connector.Connector.HandleWriteEvent | tmuduo/net/Connector.cc:121-143 | the socket is handed over, or closed because of an error, a self-connection or a stop |
| Connector.Connector.HandleErrorEvent | tmuduo/net/Connector.cc:145-153 | the channel is taken away and its socket closed and retried |
| Connector.Connector.StopInLoopNow | tmuduo/net/Connector.cc:43-50 | an attempt under way is abandoned and its socket closed, without a retry unless started again meanwhile |
| Connector.Connector.StartNow | tmuduo/net/Connector.cc:22-35 | an attempt is made from the disconnected state |
| Connector.Connector.RestartNow | tmuduo/net/Connector.cc:91-97 | the delay starts over and a new attempt is made |
| Connector.Connector.FireTimer | tmuduo/net/Connector.cc:155-161 | a retry that is due leaves the timers and makes an attempt if still wanted |
| Connector.Connector.HandleEvent | tmuduo/net/Channel.cc:64-72 | the error callback and then the write callback perform the dispatch |
| Connector.Connector.ResetChannel | tmuduo/net/Connector.cc:117-119 | the deferred functor leaves no channel |
| PollPoller.TableStaysConsistent | tmuduo/net/poller/PollPoller.cc:46-103 | over every sequence of calls no assertion fails if and only if only new channels are added, registered ones updated, and channels removed that were muted since added and want nothing; then slots and registered channels correspond one to one, each slot has the events last asked for, and poll watches exactly the descriptors never muted since added |
| PollPoller.RemoveKeepsBijection | tmuduo/net/poller/PollPoller.cc:92-102 | swap-remove keeps the bijection and unregisters exactly the one descriptor, encoded last slots included |
| PollPoller.RemoveKeepsSlots | tmuduo/net/poller/PollPoller.cc:92-102 | every other channel's slot keeps its contents, wherever it is now |
| PollPoller.PolledAsWantedIff | tmuduo/net/poller/PollPoller.cc:66-75 | after any sequence of updates and removals, poll watches a registered descriptor as its channel wants if and only if it was muted since added exactly when it wants nothing now, so not after a mute and a new enable |
| PollPoller.AssertsIffKept | tmuduo/net/poller/PollPoller.cc:50-87 | the assertions of one call hold if and only if the callers keep to that, in terms of their own calls |
| PollPoller.EnabledAgainIsNotPolled | tmuduo/net/poller/PollPoller.cc:66-75 | the concrete failure, as a run: a channel added, muted and enabled again is not polled |
| PollPoller.EnabledAfterRemovalFails | tmuduo/net/poller/PollPoller.cc:60-62 | enabling a removed channel again fails the assertion on the table |
| PollPoller.PollPoller.UpdateChannel | tmuduo/net/poller/PollPoller.cc:46-76 | a new channel gets the last slot and an old one its slot updated, with the assertions met |
| PollPoller.PollPoller.RemoveChannel | tmuduo/net/poller/PollPoller.cc:78-103 | the swap, the pop and the index rewrite perform the removal on the table, and only one channel leaves |
| EPollPoller.KernelMirrorsUsers | tmuduo/net/poller/EPollPoller.cc:66-138 | over every sequence of calls no assertion fails and the kernel refuses nothing if and only if only new channels are added, known ones updated, and channels removed that want nothing; then the kernel watches exactly the registered descriptors that want something or whose mutes in a row leave them registered, each with the events last asked for |
| EPollPoller.WatchedAsWantedIff | tmuduo/net/poller/EPollPoller.cc:78-101 | a registered descriptor is watched exactly when it wants something if and only if it wants something, or was muted an odd number of times in a row after an interest, or an even number without one |
| EPollPoller.MutedTwiceIsWatched | tmuduo/net/poller/EPollPoller.cc:78-101 | the concrete failure, as a run: a channel added and muted twice is watched and wants nothing |
| EPollPoller.StepKeepsMirror | tmuduo/net/poller/EPollPoller.cc:66-121 | every call whose assertions hold keeps the kernel's set exactly the added channels with their events |
| EPollPoller.EPollPoller.UpdateChannel | tmuduo/net/poller/EPollPoller.cc:66-102 | the index and the kernel's set move together, and no ADD, MOD or DEL is issued in the wrong kernel state |
| EPollPoller.EPollPoller.RemoveChannel | tmuduo/net/poller/EPollPoller.cc:104-121 | the channel leaves the table, and the kernel exactly if it was there, and is new again |
| BoundedBlockingQueue.NoWaiterIsStuck | tmuduo/base/BoundedBlockingQueue.h:23-52 | in every run with any threads, overtaking and spurious wakeups, items leave in order within the capacity, and while a consumer sleeps there are at most as many items as woken consumers, likewise for producers and free slots |
| BoundedBlockingQueue.EveryCallAccountedFor | tmuduo/base/BoundedBlockingQueue.h:23-52 | for every thread of every run: the items its calls of put brought are those of it that were inserted, in its order, and the one it waits with; it called take once per item it was given, and once more if it waits |
| BoundedBlockingQueue.StepKeepsWaiters | tmuduo/base/BoundedBlockingQueue.h:23-52 | the inductive invariant behind it, one notification at a time |
| BoundedBlockingQueue.StepKeepsFifo | tmuduo/base/BoundedBlockingQueue.h:23-52 | taken items followed by the queue are the items put, and the queue never exceeds the capacity |
| BoundedBlockingQueue.BoundedBlockingQueue.Put | tmuduo/base/BoundedBlockingQueue.h:23-41 | the item is inserted and one consumer notified, or the producer sleeps exactly if the queue is full |
| BoundedBlockingQueue.BoundedBlockingQueue.Take | tmuduo/base/BoundedBlockingQueue.h:43-52 | the oldest item is returned and one producer notified, or the consumer sleeps exactly if the queue is empty |
| BoundedBlockingQueue.BoundedBlockingQueue.ResumePut | tmuduo/base/BoundedBlockingQueue.h:25-29 | a woken producer tests its condition again with the item it brought |
| BoundedBlockingQueue.BoundedBlockingQueue.ResumeTake | tmuduo/base/BoundedBlockingQueue.h:45-51 | a woken consumer tests its condition again |

## Left out

- Pollers' waiting, sockets, files, clocks and threads: system calls answer as the
  environment of a model decides.
- Integer overflow of sizes, timestamps and `nextConnId_`: sizes and times are unbounded
  integers. The truncation of a message size to 32 bits and the saturating eventfd
  counter are modelled.
- EventLoop: `looping_`, thread identity checks and the active channel list; what an event
  handler or functor does is what it queues, and whether it quits.
- EventLoop.EventLoop.Loop: calls of queueInLoop and quit are whole in the method, a push with
  its wakeup; the interleavings in between are covered by the machine's runs.
- TcpConnection: sends from other threads, which capture locals by reference or move
  buffers, and the reuse of moved-from buffers; `forceCloseInLoop`, which nothing calls;
  the high-water and write-complete callbacks are taken to be set.
- TcpConnection.DispatchAssertsIff: the message callback called during the dispatch is
  taken to do nothing to the connection; the DOWN callback may call shutdown().
- TcpServer: the destructor, and which loop the thread pool picks (any loop may be). The
  connections are values in a sequence, not shared objects, so lifetimes by reference
  count are not captured.
- AsyncLogging: buffers are values with one owner, as unique_ptr makes them; the text of a
  notice, file rolling and flushing, and the timeout of the wait. Lines still in buffers
  when the writer stops are not written, so conservation is stated for every reachable
  state.
- HttpContext.FeedIsParse: the receive time depends on the arrival that completes the
  request line, and the body is whatever has arrived when the headers end
  (`tmuduo/net/http/HttpContext.cc:75-80`); Content-Length (section 3.3.2 of RFC 7230) is
  not read by the source.
- HttpServer: the formatting of responses; the user's callback is a function of the
  request and the close flag.
- TimerQueue: intervals are whole microseconds, not doubles; one clock serves for the
  readings and the timerfd; expirations are positive, since zero means none at
  `tmuduo/net/TimerQueue.cc:158`.
- TimerQueue.TimersStayConsistent: callbacks keep the discipline that `AddInCallbackIff`
  and `CancelBreaksIff` show to be needed, and only known ids are cancelled.
- Connector.SocketsAreLinear: `start` and `restart` are called on the loop thread with nothing
  of an earlier attempt left; `StartIsSafeIff` and `RestartIsSafeIff` show that this is needed.
  The active list is modelled for the connector's own channel only.
- PollPoller: filling the active channel list, which does not look at the returned events
  (`tmuduo/net/poller/PollPoller.cc:32-44`).
- EPollPoller, PollPoller: two channel objects at once for one descriptor.
- EPollPoller: the growing event array and the filling of the active channel list.
- BoundedBlockingQueue: `empty`, `full`, `size` and `capacity`.
- LogStream: floating-point and string output, and the logger's line format.
- The thread pools, blocking queue, count-down latch, acceptor, TCP client, SQL
  connection pool, web server example and process information: simple beside the above
  or wrappers over foreign calls.
