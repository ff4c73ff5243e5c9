# Lotta: a model of the reactor in Dafny

Lotta is a network library built around an event loop per thread. This project models the parts
of it whose correctness is a matter of whole runs, and proves what holds of every run.

Each part is modelled twice. A datatype holds the part's state as a value, `Enabled` says what its
callers, the kernel and the source's own assertions allow, and `Step` is what one operation does;
a run is any legal sequence of operations, with any answers of the kernel and in any interleaving
of the threads. A class then holds the source's fields and changes them in place; each of its methods
is proved to compute one step or several, and together they cover all steps, so that what is proved
of runs holds of the objects.

- `Strings.dfy`: the forward search of `std::search` and the decimal printer.
- `Buffer.dfy`: the byte buffer, with its in-place compaction.
- `Channel.dfy`: interest masks and the order of callbacks.
- `Poller.dfy`: the dense poll array against the channel map and the back-indices.
- `Connection.dfy`: the outgoing byte stream and the half-close of a connection.
- `EventLoop.dfy`: the task queue, the wakeup descriptor and quitting, with any number of threads.
- `TimerQueue.dfy`, `TimerRuns.dfy`, `TimerObjects.dfy`: the timers, the theorems about their runs,
  and the queue over timer objects.
- `Http.dfy`: the request parser, the response printer and the header list.
- `Connector.dfy`: connecting with retries.
- `Registry.dfy`: the server's map of connections.

## What the code does that one might not expect

The model follows the code. Where the code misses what it is for, the exact condition is proved,
in most cases with a run that violates it:

- A buffer that was filled to its capacity and drained rewinds its cursor over the consumed bytes,
  and the next append makes them readable again (`AppendExact`, `StreamConserved`,
  `ResurrectionReachable`).
- A direct write that fails drops the message, because the -1 is kept in an unsigned variable
  (`FailedWriteDrops`).
- SHUT_WR is issued while bytes wait exactly when a shutdownTask runs only after handleClose
  (`HalfCloseFlushedIff`): one that was queued before it (`CloseBeforeFlush`), or one whose shutdown()
  was between its state test and its store when the connection closed (`CloseInsideShutdown`).
- A task that the loop thread pushes before loop() does not end the first poll
  (`EarlyPushGetsStuck`).
- A quit before loop() has cleared the flag is lost (`EarlyQuitIsLost`, `DestructorQuitLost`).
- A loop can be gone before a thread that has pushed or quit writes its wakeup descriptor, exactly if
  its flag is set (`LeftBehindIff`, `AnnouncerLeftBehindIff`, `QuitterLeftBehind`).
- resetTimerFd gives the timerfd a negative time for a deadline already passed, which is refused, and
  zero for one just met, which disarms it. So a timer without delay added to an idle queue never
  runs, and neither does the next one after a handleTimer that took too long (`AddStallsIff`,
  `FinishCoversIff`, `DeadlineCoversIff`, `StallPersists`, `StallReachable`). A timer due exactly at
  the clock reading of handleTimer violates its assertion (`ExpiryAssertsIff`, `DueToTheTickFails`).
- A channel that is switched off and on again without being removed is never polled
  (`UpdateReachesPollIff`, `OffAndOnIsNotPolled`), a channel can be removed only while no other is
  parked (`RemovePassesIff`), and never registered again (`RemoveChannel`, `RemovedIsShutOut`).
- A connection attempt is taken for established whenever its event has no error bit, whatever
  SO_ERROR says (`EventConnectsIff`, `RefusedIsConnected`).
- The channel that the default connection callback stores is destroyed by the reset queued just before
  (`DefaultChannelIsReset`).
- A connection that is closed twice is erased twice, the second time in vain (`ErasesOneIffClosedOnce`,
  `DoubleCloseErasesNothing`).
- A header block without a final line end is accepted, and its rest becomes the body (`AcceptedIff`,
  `CutOffIsAccepted`).

## Model

| member | source | states |
|---|---|---|
| Strings.Find | include/lotta/buffer.h:112 | std::search: the first place where the delimiter occurs, and the end exactly when it occurs nowhere before it |
| Strings.DecimalRoundTrip | src/http/response.cc:17 | the decimal printed for a number reads back as that number |
| Strings.ToDecimal | src/http/response.cc:17 | digits only, without a leading zero |
| Buffers.AppendExact | include/lotta/buffer.h:159-200 | append puts the new bytes behind the unread ones if and only if the buffer was not full and wholly consumed; else all stored bytes become readable again |
| Buffers.AppendReallocates | include/lotta/buffer.h:159-200 | the vector grows exactly when unread plus new bytes exceed its capacity, or a non-empty append meets a degenerate buffer |
| Buffers.AppendCursor | include/lotta/buffer.h:159-200 | the unread bytes move to the front exactly when only that makes room; everything before the cursor stays, also in a larger vector |
| Buffers.DegenerateReachable | include/lotta/buffer.h:190-194 | filling a fresh buffer of any capacity and draining it is such a state |
| Buffers.RevokeExact | include/lotta/buffer.h:140-143 | under its assertion, revoke leaves a usable buffer exactly when it gives back everything consumed |
| Buffers.CutSplits | include/lotta/buffer.h:111-120 | retrieveUntil splits the unread bytes at the first delimiter, and without one, or for an empty one, takes nothing |
| Buffers.Buffer.MakeRoom | include/lotta/buffer.h:190-199 | the overlapping forward copy moves exactly the unread bytes to the front |
| Buffers.Buffer.AppendBytes | include/lotta/buffer.h:159-162 | append in place or into a larger vector yields the same contents |
| Buffers.Buffer.Take | include/lotta/buffer.h:133-138 | retrieve yields the first n unread bytes and moves the cursor behind them |
| Buffers.Buffer.TakeUntil | include/lotta/buffer.h:111-120 | retrieveUntil yields the slice before the delimiter and leaves what follows it |
| Buffers.Buffer.DiscardBytes | include/lotta/buffer.h:164-167 | discard drops the last n unread bytes and nothing else |
| Buffers.Buffer.ReadFrom | src/buffer.cc:14-26 | what the read got is appended, then zeros up to what was announced; the unread bytes grow by exactly what was read if and only if nothing was missing and the buffer was not degenerate |
| Channels.Fired | src/channel.cc:43-60 | exactly the installed callbacks whose bits are reported run |
| Channels.FiredInOrder | src/channel.cc:43-60 | once each, in the order close, error, read, write |
| Channels.AllFour | src/channel.cc:43-60 | an event in which all four run |
| Connections.StreamConserved | src/tcp_connection.cc:53-119 | in every run, from any capacity and beyond handleClose, bytes taken by the kernel followed by bytes waiting are all undropped messages in order, if and only if no append met a degenerate buffer |
| Connections.StepStream | src/tcp_connection.cc:53-119 | one operation extends the stream by exactly the message it was handed, and by more exactly when it resurrects consumed bytes |
| Connections.FailedWriteDrops | src/tcp_connection.cc:103-118 | a message leaves no trace exactly when it was written directly and the write failed |
| Connections.ResurrectionReachable | src/tcp_connection.cc:101-119 | a run from a fresh connection of any capacity, with partial writes, that delivers consumed bytes a second time |
| Connections.StepInv | src/tcp_connection.cc:53-138 | every operation keeps "write interest is on exactly while bytes wait" and the shutdown obligation, and up to handleClose issues SHUT_WR only on an empty buffer |
| Connections.HalfCloseAfterFlush | src/tcp_connection.cc:64-130 | when SHUT_WR is issued before handleClose the kernel has taken every message handed over before, given no degenerate append |
| Connections.HalfCloseFlushedIff | src/tcp_connection.cc:64-130 | in every run, SHUT_WR is only issued on an empty buffer if and only if no shutdownTask runs after handleClose while bytes wait |
| Connections.CloseBeforeFlush | src/tcp_connection.cc:73-130 | a run in which a close overtakes a queued shutdownTask, which issues SHUT_WR while bytes wait |
| Connections.CloseInsideShutdown | src/tcp_connection.cc:73-130 | a run in which the close comes between the state test and the store of a shutdown() |
| Connections.ShutdownNotForgotten | src/tcp_connection.cc:121-130 | after a shutdown took effect, until the close, SHUT_WR was issued, or its task is still to run, or the buffer is still draining |
| Connections.DrainHalfCloses | src/tcp_connection.cc:64-70 | the write that drains a disconnecting connection half-closes it |
| Connections.HalfClosesIff | src/tcp_connection.cc:64-130 | SHUT_WR is issued by a shutdownTask with nothing to write or by the write that drains a disconnecting connection, and by nothing else |
| Connections.TakenExactly | src/tcp_connection.cc:53-119 | in every run the kernel has taken exactly as many bytes as its answers to the writes say |
| Connections.ReadingExactly | src/tcp_connection.cc:65-93 | a connection reads from its establishment to handleClose, whatever is written or drained in between |
| Connections.PhaseExactly | src/tcp_connection.cc:73-136 | the state is what the last of connEstablished, shutdown(), close() and handleClose stored |
| Connections.ShutdownsCounted | src/tcp_connection.cc:121-130 | each shutdown() that finds the connection established stores once and has its task run once |
| Connections.TcpConnection.SendNow | src/tcp_connection.cc:101-119 | sendTask on the object's fields, with its unsigned write result |
| Connections.TcpConnection.HandleWritable | src/tcp_connection.cc:53-71 | handleWrite on the object's fields |
| Connections.TcpConnection.ShutdownWrite | src/tcp_connection.cc:126-130 | shutdownTask issues SHUT_WR unless bytes are still being written |
| Connections.TcpConnection.TestShutdown | src/tcp_connection.cc:122 | shutdown goes on only from Connected |
| Connections.TcpConnection.StoreShutdown | src/tcp_connection.cc:123-124 | shutdown stores Disconnecting and owes a shutdownTask |
| Connections.TcpConnection.Close | src/tcp_connection.cc:73-81 | handleClose ends all interest, takes the channel off the poller and has the server post the connection's removal |
| EventLoops.NoLostWakeup | src/event_loop.cc:55-158 | in every interleaving without a push of the loop thread before loop(), a loop in poll with tasks waiting will be woken |
| EventLoops.EarlyPushGetsStuck | src/event_loop.cc:55-105 | in every run, tasks wait in a poll that nothing will end exactly if it is the loop's first poll, the loop thread has pushed, and no other thread has pushed or quit |
| EventLoops.EarlyPushExample | src/event_loop.cc:101-104 | the shortest such run |
| EventLoops.CounterExact | src/event_loop.cc:148-158 | in every run the eventfd's counter is the number of writes since it was last read |
| EventLoops.DispatchDrains | src/event_loop.cc:60-66 | between the return of poll and the end of the dispatch it is read exactly once if it was readable, and else not |
| EventLoops.StepInv | src/event_loop.cc:55-158 | every atomic step of any thread keeps the wakeup, quit and accounting invariant |
| EventLoops.ExactlyOnceInOrder | src/event_loop.cc:96-118 | tasks run, rest of the batch and queue are together always all tasks pushed by the run, in order |
| EventLoops.BatchIsSnapshot | src/event_loop.cc:107-118 | one doFuncQueue runs exactly the queue at its swap, whatever is pushed meanwhile |
| EventLoops.RunByNextBatch | src/event_loop.cc:107-118 | every task pushed has run when the next batch swapped after it ends |
| EventLoops.QuitEnds | src/event_loop.cc:55-76 | a quit inside loop() stays, each control step brings the exit nearer, and poll returns at most once more |
| EventLoops.QuitForcesExit | src/event_loop.cc:55-118 | in every interleaving a loop told to quit has exited once it has made a bounded number of own steps, two more for each task pushed meanwhile, with at most one return of poll |
| EventLoops.QuitExits | src/event_loop.cc:55-118 | a loop told to quit reaches its exit by its own steps, with at most one return of poll |
| EventLoops.QuitFlagIff | src/event_loop.cc:55-76 | inside loop() the flag is set exactly if it was or some thread quit since |
| EventLoops.CanExitIff | src/event_loop.cc:55-69 | inside loop() an exit without a further quit is possible exactly if the flag is set |
| EventLoops.QuitNeverBlocks | src/event_loop.cc:60-76 | with the flag set the loop always has a next step, and in poll a wakeup is pending |
| EventLoops.EarlyQuitIsLost | src/event_loop.cc:55-76 | the loop can exit exactly if some thread quit after loop() cleared the flag, whatever was told before |
| EventLoops.DestructorQuitLost | src/event_loop_thread.cc:17-43 | the destructor of a thread just started can issue such a quit |
| EventLoops.LeftBehindIff | src/event_loop.cc:55-105 | a thread that has yet to write the wakeup descriptor can find the loop gone if and only if the flag is set |
| EventLoops.AnnouncerLeftBehindIff | src/event_loop.cc:71-105 | so every foreign quit inside loop() can be left behind, and a foreign push exactly if the flag was set |
| EventLoops.WakingIff | src/event_loop.cc:71-105 | the threads that will still write are those that pushed or quit and have not written since |
| EventLoops.QuitterLeftBehind | src/event_loop.cc:71-76 | a run in which the thread that quit is one |
| EventLoops.FuncQueueIsRun | src/event_loop.cc:107-118 | the sequential doFuncQueue is one of the runs |
| EventLoops.EventLoop.PushQueue | src/event_loop.cc:96-105 | pushQueue on the loop thread wakes itself exactly while a batch runs |
| EventLoops.EventLoop.PushFrom | src/event_loop.cc:96-100 | pushQueue on another thread up to the end of its critical section |
| EventLoops.EventLoop.WakeFrom | src/event_loop.cc:148-152 | wakeup adds to the descriptor's counter |
| EventLoops.EventLoop.QuitFrom | src/event_loop.cc:71-76 | quit on another thread sets the flag and owes a wakeup |
| EventLoops.EventLoop.HandleWakeup | src/event_loop.cc:154-158 | reading the descriptor drains it |
| EventLoops.EventLoop.EnterLoop | src/event_loop.cc:55-58 | loop() clears the flag |
| EventLoops.EventLoop.TestFlag | src/event_loop.cc:60 | the test at the head of the loop |
| EventLoops.EventLoop.PollReturn | src/event_loop.cc:62 | poll returns with the wakeup channel active exactly if its descriptor is readable |
| EventLoops.EventLoop.QuitHere | src/event_loop.cc:71-76 | quit on the loop thread sets the flag and wakes nobody |
| EventLoops.EventLoop.PublishLoop | src/event_loop_thread.cc:36-42 | the loop becomes known to other threads |
| EventLoops.EventLoop.UnpublishLoop | src/event_loop_thread.cc:43-46 | and is taken back once it has ended |
| EventLoops.EventLoop.Iterate | src/event_loop.cc:60-67 | one iteration, from the return of poll to the next test of the flag, with callbacks and tasks that push and quit at will, is a run of the steps, executes exactly the queue and what the callbacks pushed, and goes on exactly if nobody quit |
| EventLoops.EventLoop.DoFuncQueue | src/event_loop.cc:107-118 | runs the queue in order and leaves exactly what its tasks pushed, in order, and the flag set if one quit |
| EventLoops.EventLoop.SwapQueue | src/event_loop.cc:108-113 | the flag is set before the queue is taken |
| EventLoops.EventLoop.FinishBatch | src/event_loop.cc:117 | the end of doFuncQueue |
| TimerQueues.StepInv | src/timer_queue.cc:83-148 | every operation keeps the map sorted and keyed by the deadlines, with no timer twice in map and batch |
| TimerQueues.MapWellFormed | src/timer_queue.cc:83-148 | in every reachable state the map is sorted, every key is its timer's deadline, and each timer occurs at most once in map and running batch together |
| TimerQueues.InsertSorted | src/timer_queue.cc:143-148 | a new entry stands behind all entries due no later, so equal deadlines keep their order |
| TimerQueues.CancelledForGood | src/timer_queue.cc:83-141 | a cancelled timer is never in the map again and runs at most once more, only if still to come in the running batch, whatever callbacks do |
| TimerQueues.CancelBeforeAddIgnored | src/timer_queue.cc:67-81 | a cancellation that overtakes addTask has no effect |
| TimerQueues.ResetTimer | src/timer_queue.cc:111-117 | resetTimers moves a timer on by one interval exactly if it repeats, was in the batch and was not cancelled |
| TimerQueues.ResetAllExact | src/timer_queue.cc:109-117 | resetTimers adds exactly those entries to the map |
| TimerQueues.ReturnInOrder | src/timer_queue.cc:109-117 | timers of a batch that return with the same deadline stand in the order in which they ran |
| TimerRuns.NoDrift | src/timer.cc:9-15 | a timer that waits after k runs is due at the deadline it was made for plus k intervals; a one-shot runs at most once and never waits again |
| TimerRuns.KnownExactly | src/timer.cc:9-15 | a timer stays as it was made but for its deadline, and counts as added exactly if some addTask added it |
| TimerRuns.ClocksExact | src/timer_queue.cc:26-97 | the clock readings in the state are the last ones of the run |
| TimerRuns.ExpiryPartitions | src/timer_queue.cc:99-107 | expireTimers takes exactly the entries before now, in order |
| TimerRuns.ExpiryAssertsIff | src/timer_queue.cc:101-102 | the assertion holds exactly when no timer is due at the very reading of the clock |
| TimerRuns.DueToTheTickFails | src/timer_queue.cc:101-102 | a run in which it fails |
| TimerRuns.HandleRunsExpiredOnce | src/timer_queue.cc:83-97 | one handleTimer runs each expired timer once, in order, and nothing else |
| TimerRuns.HandleConserves | src/timer_queue.cc:83-117 | the map after handleTimer balances: unexpired plus added plus returned, less cancelled |
| TimerRuns.FinishConserves | src/timer_queue.cc:109-117 | the end of handleTimer adds the returning repeaters to what the callbacks left |
| TimerRuns.DeadlineCoversIff | src/timer_queue.cc:26-148 | throughout a run the armed deadline covers the earliest timer outside handleTimer, through every add, cancel and expiry, if and only if every add and every end of a handleTimer met its condition |
| TimerRuns.FinishCoversIff | src/timer_queue.cc:109-121 | the end of any handleTimer leaves the earliest timer covered exactly if every timer left that is already due is covered by a deadline armed meanwhile, and the first one is not due at the very reading of resetTimerFd |
| TimerRuns.HandleCoversIff | src/timer_queue.cc:83-121 | the same for a whole handleTimer with any callbacks |
| TimerRuns.AddCoversIff | src/timer_queue.cc:123-130 | what an add needs: a new first deadline lies after the clock reading, or has passed and is covered all the same |
| TimerRuns.AddArmsIff | src/timer_queue.cc:123-130 | what an add does to the timerfd, in callbacks too: it arms it exactly for a new first deadline still to come, disarms it for one met to the tick, and otherwise leaves it |
| TimerRuns.ArmedExactly | src/timer_queue.cc:26-130 | in every run the timerfd is armed for what the last event that set it set it to |
| TimerRuns.ArmedFromStart | src/timer_queue.cc:26-130 | the same from the start, when nothing is armed |
| TimerRuns.ArmedInCallbacks | src/timer_queue.cc:83-130 | at the end of a handleTimer called for an expired timerfd it is armed only by adds of the callbacks |
| TimerRuns.TimelyKeeps | src/timer_queue.cc:109-130 | nothing being late is enough for all these conditions |
| TimerRuns.QuietHandleCoversIff | src/timer_queue.cc:83-121 | for callbacks that change nothing: covered afterwards if and only if the map held no timer due between the two clock readings and no repeater whose next deadline passes before the end |
| TimerRuns.StallPersists | src/timer_queue.cc:118-130 | an unarmed queue stays unarmed, and no callback runs, as long as only later deadlines or past ones are added |
| TimerRuns.AddStallsIff | src/timer_queue.cc:26-37 | adding to an idle queue stalls it exactly if the deadline is not after the clock reading |
| TimerRuns.StallReachable | src/timer_queue.cc:109-121 | a timer every 5 ticks, due at 10 and handled once, leaves the queue stalled exactly if its handleTimer ends at 15 or later |
| TimerObjects.Timer.Restart | src/timer.cc:9-15 | a repeating timer moves on by one interval |
| TimerObjects.TimerQueue.PushTimerToMap | src/timer_queue.cc:143-148 | inserts the timer and reports whether it is the earliest |
| TimerObjects.TimerQueue.ResetTimerFd | src/timer_queue.cc:26-37 | arms for a deadline to come, disarms for one just met, does nothing for one already passed |
| TimerObjects.TimerQueue.AddTask | src/timer_queue.cc:123-130 | addTask, with the timerfd set for a new earliest timer |
| TimerObjects.TimerQueue.CancelTask | src/timer_queue.cc:132-141 | cancelTask, from the map or into the cancelled list |
| TimerObjects.TimerQueue.ExpireTimers | src/timer_queue.cc:99-107 | the expired entries leave the map |
| TimerObjects.TimerQueue.ResetTimers | src/timer_queue.cc:109-121 | resetTimers on timer objects advanced in place |
| TimerObjects.TimerQueue.HandleTimer | src/timer_queue.cc:83-97 | handleTimer with callbacks that make, add and cancel timers is the run of its steps |
| Pollers.StepInv | src/poll_poller.cc:37-85 | updates and swap-with-last removals keep array, map and back-indices in bijection |
| Pollers.PolledExactly | src/poll_poller.cc:15-85 | after any run, with polls in between, poll is given a descriptor with exactly its last interest, unless it was switched off since its registration |
| Pollers.ReportedExactly | src/poll_poller.cc:15-64 | after any run each entry holds its descriptor's last report, and none after an update or while switched off |
| Pollers.FirstStaysFirst | src/poll_poller.cc:65-85 | the descriptor in the first place keeps it until it is removed |
| Pollers.PlacesAfter | src/poll_poller.cc:37-85 | a new descriptor comes last, and a removal moves only the last one, into the freed place |
| Pollers.UpdateReachesPollIff | src/poll_poller.cc:49-63 | an update reaches poll exactly if it registers the descriptor, or leaves a read or write interest in one that was on |
| Pollers.OffAndOnIsNotPolled | src/poll_poller.cc:49-63 | a run in which a descriptor is switched off and on and not polled |
| Pollers.DisciplinedRun | src/poll_poller.cc:65-85 | with disableEvents and remove always paired, and polls in between, every removal passes its assertions and poll is given exactly the interest asked for |
| Pollers.FirstUpdateEmpty | src/poll_poller.cc:40-48 | a channel first updated without interest cannot be removed until it is disabled once more |
| Pollers.RemovePassesIff | src/poll_poller.cc:65-85 | a registered channel passes all assertions and lookups of removeChannel exactly if it has no interest and no other channel is parked |
| Pollers.AnswersReportable | src/poll_poller.cc:24-28 | the lookups of poll never fail |
| Pollers.ReadyPlaces | src/poll_poller.cc:23-33 | the reporting descriptors are those of the entries with a report, each once, in the array's order |
| Pollers.PlacesExact | src/poll_poller.cc:23-33 | and these are exactly the entries with a non-zero report |
| Pollers.PollPoller.UpdateChannel | src/poll_poller.cc:37-64 | updateChannel on the array, the map and the channel |
| Pollers.PollPoller.RemoveChannel | src/poll_poller.cc:65-85 | removeChannel on the array, the map and the moved channel; the removed one keeps its index, so that updateChannel's assertions fail for it |
| Pollers.RemovedIsShutOut | src/poll_poller.cc:40-51 | they fail for it as long as it keeps its index, whatever else is registered |
| Pollers.PollPoller.DropChannel | src/tcp_connection.cc:77-78 | disableEvents and remove on a channel, with no other parked |
| Pollers.PollPoller.PollOnce | src/poll_poller.cc:15-35 | poll delivers exactly the channels with a report, in order, once each, although it stops early, and leaves the reports of all others |
| Pollers.PollPoller.Scan | src/poll_poller.cc:23-33 | the scan with its countdown loses nothing |
| Http.RequestRoundTripIff | src/http/request.cc:17-80 | parsing printed fields gives them back and leaves nothing unread, if and only if the path is non-empty without a space and the headers are free of ": " in names and of line ends |
| Http.AcceptedIsPrinted | src/http/request.cc:17-80 | whatever is accepted carries the fields that were returned, up to the five skipped bytes and a missing blank line |
| Http.CarriedIsAccepted | src/http/request.cc:17-80 | and every message that does so is accepted, with exactly these fields and nothing left unread |
| Http.CarriedIsRead | src/http/request.cc:17-80 | read into a used request, its headers follow those already there and everything else is replaced |
| Http.AcceptedIff | src/http/request.cc:17-80 | the language of the parser: accepted with these fields if and only if the message carries them |
| Http.CutOffIsAccepted | src/http/request.cc:67-79 | a message without an empty line that is accepted |
| Http.GoodHeaderIff | src/http/request.cc:66-78 | what the round trip asks of a header, in terms of its name and value |
| Http.ReadHeadersSound | src/http/request.cc:67-78 | the header loop returns the headers its input consists of |
| Http.MethodOfSound | src/http/request.cc:20-40 | a method is recognised only by its own name |
| Http.MethodTokens | src/http/request.cc:20-40 | the eight method tokens and no others |
| Http.VersionTokens | src/http/request.cc:51-65 | the five version numbers behind any five bytes |
| Http.ThrowsAtMethod | src/http/request.cc:37-40 | an unknown method, or a missing space, throws with only that token read |
| Http.ThrowsAtPath | src/http/request.cc:41-45 | an empty path throws with the method stored |
| Http.ThrowsAtVersion | src/http/request.cc:47-65 | an unknown version throws with method and path stored |
| Http.ThrowsAtHeader | src/http/request.cc:67-75 | the first line without ": " ends the header loop with the headers before it stored |
| Http.ThrowsAfterStartLine | src/http/request.cc:17-75 | and the parser, with the start line stored too |
| Http.NothingRead | include/lotta/http/request.h:20 | the defaults of a new request |
| Http.SetExact | include/lotta/http/headers.h:20-39 | set changes the first entry of its key and nothing else, or appends; get finds it |
| Http.GetExact | include/lotta/http/headers.h:20-25 | get finds the first entry of its key, and the empty string without one |
| Http.ResponseHeaders | src/http/response.cc:15-18 | after any changes Content-Length is the decimal of the body's length |
| Http.ResponseRoundTrip | src/http/response.cc:20-30 | the header loop applied after the status line recovers headers and body of any response |
| Http.ResponseReadBack | src/http/response.cc:11-30 | what is read back of a response is what was last set: status, body and the body's length |
| Http.StatusLines | src/http/response.cc:20-24 | the three status lines |
| Http.Headers.GetValue | include/lotta/http/headers.h:20-25 | get, as a loop over the list |
| Http.Headers.SetValue | include/lotta/http/headers.h:31-39 | set, as a loop over the list |
| Http.Request.ReadBuffer | src/http/request.cc:17-80 | the parser on the request's fields and the buffer, including how far it got when it throws |
| Http.Request.TakeHeaders | src/http/request.cc:67-78 | the header loop on the buffer |
| Http.ResponseObject.SetBodyTo | src/http/response.cc:15-18 | setBody on the object's fields |
| Http.ResponseObject.ToText | src/http/response.cc:20-30 | the printer with its loop |
| Connectors.SingleAttempt | src/connector.cc:39-146 | in every run exactly one of queued start, attempt, retry timer, connection and given-up attempt holds, and outside an attempt the channel is gone or about to go |
| Connectors.AssertionsHold | src/connector.cc:50-84 | the assertions of startTask and connected() hold whenever startTask is run |
| Connectors.Backoff | src/connector.cc:91-101 | the k-th retry waits 1, 2, 4, 8, 16 and from then on 30 seconds |
| Connectors.OutcomeDecides | src/connector.cc:58-101 | what each group of errno leads to: an attempt, one retry after the delay that is due, or nothing more |
| Connectors.RunCounts | src/connector.cc:48-136 | over any run one retry for each failed attempt, one callback for each established one, and giving up exactly on an unforeseen errno |
| Connectors.DefaultChannelIsReset | src/connector.cc:138-150 | the channel that the default connection callback stores is taken away by the queued reset |
| Connectors.EventConnectsIff | src/connector.cc:103-136 | an event connects exactly if it has the write bit and no error bit; with an error bit it causes one retry |
| Connectors.RefusedIsConnected | src/connector.cc:103-125 | a run in which a refused connection ends in Connected |
| Connectors.TimerBeforeResetFails | src/connector.cc:82-89 | if the retry timer could overtake the channel's reset, an assertion would fail exactly when the new attempt reaches connected() |
| Connectors.Connector.RunStartTask | src/connector.cc:48-80 | startTask as start() queues it |
| Connectors.Connector.RunRetryTimer | src/connector.cc:48-99 | startTask as a retry timer runs it |
| Connectors.Connector.TryConnect | src/connector.cc:48-89 | the body of startTask with the three groups of errno |
| Connectors.Connector.ResetChannel | src/connector.cc:142-144 | the queued reset of the channel |
| Connectors.Connector.Proceed | src/event_loop.cc:60-67 | the parts of an iteration follow each other, with no reset left over |
| Connectors.Connector.Retry | src/connector.cc:91-101 | retry on the object's fields |
| Connectors.Connector.HandleWrite | src/connector.cc:103-125 | handleWrite on the object's fields |
| Connectors.Connector.HandleError | src/connector.cc:127-136 | handleError on the object's fields |
| Connectors.Connector.HandleChannelEvent | src/channel.cc:43-60 | one channel event runs the error callback before the write callback |
| Registries.RegistryExact | src/tcp_server.cc:87-112 | in every interleaving of the loops the map holds exactly the connections whose erase task has not run, and a new name is never taken |
| Registries.RemovalsEraseOneIff | src/tcp_server.cc:105-112 | every removal erases exactly one entry if and only if no connection's erase task ran twice |
| Registries.ErasesOneIffClosedOnce | src/tcp_server.cc:105-112 | in a run that lets all erase tasks run, each erases exactly one entry if and only if handleClose ran at most once per connection |
| Registries.DoubleCloseErasesNothing | src/tcp_server.cc:105-112 | a run, without assertions, in which closing twice makes a removal erase nothing |
| Registries.ClosesOnceErasesOne | src/tcp_connection.cc:73-81 | in any run, closing once per connection makes every removal erase one entry |
| Registries.NamesDiffer | src/tcp_server.cc:90-91 | names of different connections differ, whatever their addresses contain |
| Registries.NameExample | src/tcp_server.cc:90-91 | the format of a name |
| Registries.TcpServer.AcceptConnection | src/tcp_server.cc:87-103 | newConnection registers under a fresh name |
| Registries.TcpServer.RemoveConn | src/tcp_server.cc:105-112 | removeConn posts the erase task and leaves the map alone |
| Registries.TcpServer.EraseTask | src/tcp_server.cc:105-112 | the posted removal and the count it asserts on |

## Left out

- System calls, address formatting and the acceptor: their results are parameters, of any value the kernel could give.
- Connections.Step: after handleClose a sendTask that has to buffer, and a second handleClose, are excluded: they change the interest of a channel that the poller no longer knows, which its assertions forbid.
- Connections.TcpConnection.Close: the application's close callback is not called; that the poller knows the channel, as its other methods have told it, is asked of the caller.
- Registries.DoubleCloseErasesNothing: is a run of a build without assertions; with them the second handleClose already fails in updateChannel.
- TimerQueues.StepInv: speaks of a build without assertions; with them handleTimer aborts on a timer due exactly at its clock reading.
- TimerObjects.TimerQueue.HandleTimer: the objects that callbacks make exist before the call; making one only introduces it to the queue.
- TimerRuns.NoDrift: the interval is a whole number of clock ticks, as after the cast in restart.
- EventLoops.EventLoop.Iterate: loop() itself, which ends only by a quit, is not one method, and other threads do not interleave with this one; they do in the runs, where the mutex of the queue is the atomicity of a step.
- EventLoops.LeftBehindIff: a thread that has yet to write when the loop is gone is stopped there; what its write to the ended loop would do is not modelled.
- EventLoops.DestructorQuitLost: the thread, its mutex and its condition variable are not objects; publication, loop and end are steps of the runs.
- Buffers.Buffer.ReadFrom: a failing ioctl, which leaves the announced length undefined.
- Buffers.Buffer.Take: yields the bytes themselves, not a slice that a later append may invalidate.
- The reading half of a connection beyond its buffer, and the application's callbacks.
- The typed retrieve and append of integers with their byte swap: the typed append does not compile when it is used.
- Lifetimes of shared objects, thread identities and logging.
- The routing table of the HTTP server, the client and the pool of loops: thin wiring around what is modelled.
- Registries.TcpServer.AcceptConnection: the connection counter is unbounded where the source's is an int.
- Message framing: the parser takes all remaining bytes as body, and so does the model.
