# webrtcStreamer: a verified model

webrtcStreamer streams one video source to several browsers over WebRTC. This
project models the two parts of it whose correctness is hard to see, and proves
what they promise for every input, every run and every interleaving.

**The concurrent core.** A websocket callback, a signalling loop, a thread that
collects the clients' output, a media thread and one thread per client share
bounded blocking queues and a registry behind a reader/writer lock; a relay
server connects them to the browsers.

- `BlockingQueue.dfy` and `SafeUMap.dfy` are the two utility classes, with the
  state of their locks. `QueueMachine.dfy` is the queue as small steps of its
  callers (outside, calling, inside, asleep, woken) with the semantics of
  condition variables in ISO C++, [thread.condition.condvar]: any sleeper may be
  woken, spurious wakeups and timeouts may happen at any time, and a newcomer may
  take the mutex before a woken thread. `QueueTheorems.dfy` proves that it loses
  no wakeup and that it refines the atomic queue of `BoundedFifo.dfy`;
  `QueueCalls.dfy` says what each call comes to, a timed one that times out included.
- `WebRTCStreamer.dfy` is the streamer class, one method per stretch of code that
  a thread executes between two points where another thread can see a
  difference. `StreamerModel.dfy` is the same as a step relation, which is what
  is needed to talk about runs; each method is proved to be one of its steps. The
  other `Streamer*.dfy` files prove the invariant, the exact stall condition, how
  long the loop waits for the registry's lock, shutdown, conservation of messages in
  both directions, the registry and the broadcast. `StreamerIntake.dfy` ties what is
  in the streamer to the calls that brought it in, and `StreamerService.dfy` bounds
  the steps each thread needs for its work. `StreamerSteps.dfy` and
  `StreamerStepsProgress.dfy` put the small steps of the signalling queue in place
  of its atomic ones.
- `Relay.dfy` and `RelayModel.dfy` are the relay server's callback, and
  `RelayRegistry.dfy` says whom it knows and delivers to. `EndToEnd.dfy` and
  `EndToEndIntake.dfy` put relay and streamer together.

**The timestamp machines and parsers** that the repository carries in FFmpeg's
`fftools`: the conversion to a constant frame rate (`VideoSync*.dfy`), the audio
timebase (`AudioTimebase*.dfy`, `AudioAccuracy.dfy`, `AudioContinuity.dfy` and `AudioStreams.dfy`, with
`BinaryGcd.dfy` for `av_gcd`), the repair of decoding timestamps before muxing (`MuxTimestamps*.dfy`),
stream specifiers (`StreamSpecifier*.dfy`) and templates for encoder statistics
(`StatsTemplate*.dfy`). The code is a class or a method whose `ensures` ties the
new state to a function of the old one; the theorems are about that function and
its runs.

Logs that the program does not keep (messages handled and sent, frames accepted
and offered, where a message came from) are fields of the model that no step
reads, except that a client instance is named by the number of messages handled
before the request it was built for.

Where the code does something other than its documentation says, the model
follows the code:

- `src/WebRTCStreamer.h:54` calls the queues safe asynchronous communication, but
  the output thread pushes into the bounded signalling queue while it holds the
  registry's shared lock and the only consumer of that queue takes the exclusive
  lock. `StreamerStall` has the exact condition under which this blocks forever,
  and a run that gets there.
- The relay's ESTABLISHED case has no `break` and goes on with the RECEIVE case.
- A client whose id is taken is still fully constructed, and destroyed at once.
- An index in a stream specifier is read as a `long` and kept as an `int`, so
  large ones wrap; -1 means "not present".
- `audio_ts_process` hands `av_rescale_delta` the number of samples as a duration in
  the internal timebase. That is right exactly while that timebase is one over the
  sample rate (`AudioContinuity.InStepIffOwnRate`); otherwise a coarse timestamp
  continues the frame before it only by accident (`LaggingContinuesIff`).
- The duplicate and drop counters miss frames that are overtaken by the previous
  one, which takes a negative duration, and count a drop twice when the duplication
  limit is hit while a frame is pending; `VideoSyncTheorems.FramesAccounted` is the
  law with both.

## Model

| member | source | states |
|---|---|---|
| QueueTheorems.NoLostWakeup | src/utils/BlockingQueue.h:44-107 | in every reachable state, with spurious wakeups, timeouts and barging callers: if a consumer sleeps there are at most as many items as woken consumers; if a producer sleeps there are at most as many free places as woken producers; after a stop nobody sleeps |
| QueueTheorems.NeverBothAsleepUnattended | src/utils/BlockingQueue.h:44-93 | with room for an item, a consumer and a producer never both sleep with nobody woken |
| QueueTheorems.QuietMeansBlocked | src/utils/BlockingQueue.h:44-107 | once no thread can move by itself, every call still inside sleeps and its wait condition is false |
| QueueTheorems.EveryScheduleSettles | src/utils/BlockingQueue.h:44-107 | every schedule makes only a bounded number of internal steps between two outside events, so no wakeup is handed around forever |
| QueueTheorems.StoppedQueueEmptiesOut | src/utils/BlockingQueue.h:101-107 | after a stop every schedule brings every caller out of the queue within a bound |
| QueueTheorems.StepRefinesFifo | src/utils/BlockingQueue.h:44-107 | each step of the mutex and condition-variable code is one step of the atomic bounded FIFO or invisible |
| QueueTheorems.OnlyTimedPopsAreLate | src/utils/BlockingQueue.h:62-93 | a pop returns nothing only from an empty queue; the untimed one only if it was also stopped; before a stop it is always a timed pop whose own timeout fired |
| QueueTheorems.MachineRefinesFifo | src/utils/BlockingQueue.h:44-107 | the events of any run are a run of the atomic bounded FIFO |
| QueueTheorems.AcceptedIsPoppedThenHeld | src/utils/BlockingQueue.h:44-93 | over any run the accepted pushes are, in order, the popped items followed by the contents, and the capacity is never exceeded |
| QueueTheorems.AfterStop | src/utils/BlockingQueue.h:44-107 | after a stop nothing more is accepted, the rest is popped in order, nothing is returned before the rest is gone, nobody sleeps |
| QueueCalls.CallsAreCarriedOut | src/utils/BlockingQueue.h:44-107 | over any run from the start: a thread that holds the mutex goes back to sleep exactly if its last call has to wait and its own timeout has not fired since it last gave the mutex up; otherwise it leaves, and its call stores, takes the oldest item, returns nothing or stops, as it was made |
| QueueCalls.CallReturnsOrBlocks | src/utils/BlockingQueue.h:44-107 | a call that was made has returned once nothing moves by itself any more, or its caller sleeps because that call has to wait |
| QueueCalls.TimedOutPopReturns | src/utils/BlockingQueue.h:82-93 | in any run, a timed pop whose timeout fires returns the next time it holds the mutex, with the oldest item if there is one and else with nothing |
| QueueMachine.StepKeepsInv | src/utils/BlockingQueue.h:44-107 | every step, wakeups by nobody included, keeps the counting invariant behind the wakeup theorems and mutual exclusion |
| BoundedFifo.CapacityKept | src/utils/BlockingQueue.h:29-36 | over any run of the atomic queue the capacity bounds the contents |
| BoundedFifo.FifoConservation | src/utils/BlockingQueue.h:44-93 | initial contents plus accepted items are, in order, the popped items plus the contents |
| BoundedFifo.StoppedQueueDrains | src/utils/BlockingQueue.h:44-107 | once stopped, always stopped; nothing is accepted; what was there is popped in order |
| BoundedFifo.NothingOnlyWhenDrained | src/utils/BlockingQueue.h:55-93 | on a stopped queue nothing is returned only after all its contents were |
| BlockingQueueClass.BlockingQueue.constructor | src/utils/BlockingQueue.h:33-36 | a new queue is empty, not stopped and has the given capacity |
| BlockingQueueClass.BlockingQueue.Lock | src/utils/BlockingQueue.h:46-47 | getting the mutex, as a newcomer or after a wakeup, is the corresponding machine step; the caller is in the same call as before and its timeout, if that woke it, is not forgotten |
| BlockingQueueClass.BlockingQueue.NotifyOne | src/utils/BlockingQueue.h:52 | some sleeper of that side is woken, any one, or nobody slept there |
| BlockingQueueClass.BlockingQueue.Push | src/utils/BlockingQueue.h:44-53 | the code between two lock operations is one machine step; it has left the queue exactly when there was room or the queue was stopped, and stores only in the first case |
| BlockingQueueClass.BlockingQueue.Pop | src/utils/BlockingQueue.h:62-71 | likewise; it has left exactly when there is an item or the queue is stopped, with the oldest item if there is one, and wakes a producer |
| BlockingQueueClass.BlockingQueue.PopFor | src/utils/BlockingQueue.h:82-93 | likewise, and its own timeout also lets it leave, for good; an item that is there is returned even then |
| BlockingQueueClass.BlockingQueue.Stop | src/utils/BlockingQueue.h:101-107 | everybody asleep is woken, on both condition variables |
| SafeUMapClass.SafeUMap.Emplace | src/utils/SafeUMap.h:14-19 | inserts exactly if the key is new and never replaces |
| SafeUMapClass.SafeUMap.Get | src/utils/SafeUMap.h:21-28 | the value under the key or nothing; the map is unchanged and the lock is given back |
| SafeUMapClass.SafeUMap.Erase | src/utils/SafeUMap.h:30-34 | removes that entry and tells whether there was one |
| SafeUMapClass.SafeUMap.Traverse | src/utils/SafeUMap.h:36-44 | the callback sees every entry exactly once, with its value, in some order; the map is unchanged |
| WebRTCStreamerClass.WebRTCStreamer.constructor | src/WebRTCStreamer.cpp:168-182 | the initial state of the threads: capacities 256, empty registry, nothing handled |
| WebRTCStreamerClass.WebRTCStreamer.OnMessage | src/WebRTCStreamer.cpp:225-236 | the websocket callback marks the message as input, whatever it said before |
| WebRTCStreamerClass.WebRTCStreamer.PollSignaling | src/WebRTCStreamer.cpp:286-316 | the loop tests the flag, pops, and dispatches on mode and type; an unknown input type is dropped |
| WebRTCStreamerClass.WebRTCStreamer.InputRequest | src/WebRTCStreamer.cpp:258-260 | a Client is built first and registered only if the id is free; otherwise it is destroyed |
| WebRTCStreamerClass.WebRTCStreamer.InputAnswer | src/WebRTCStreamer.cpp:261-268 | an answer is looked up under its id and, if a Client is registered there, pushed into its queue (InboundConservation: none is lost) |
| WebRTCStreamerClass.WebRTCStreamer.OutputMessage | src/WebRTCStreamer.cpp:271-283 | a disconnect erases its id, everything else is sent unchanged |
| WebRTCStreamerClass.WebRTCStreamer.DestroyClient | src/WebRTCStreamer.cpp:134-142 | the five statements of the Client destructor, in order |
| WebRTCStreamerClass.WebRTCStreamer.CollectOutput | src/WebRTCStreamer.cpp:238-248 | one pass over the registry under the shared lock, at most one message per Client, each pushed while the lock is held |
| WebRTCStreamerClass.WebRTCStreamer.Multimedia | src/WebRTCStreamer.cpp:333-351 | each popped frame is offered to every registered Client once |
| WebRTCStreamerClass.WebRTCStreamer.PushData | src/WebRTCStreamer.cpp:321-331 | an empty buffer changes nothing; a frame is queued unless the queue was stopped (AcceptedFrames: none is lost) |
| WebRTCStreamerClass.WebRTCStreamer.OnPeerConnection | src/WebRTCStreamer.cpp:47-78 | a callback pushes a message with the Client's own id and the output mark |
| WebRTCStreamerClass.WebRTCStreamer.ClientSignaling | src/WebRTCStreamer.cpp:121-131 | the Client's thread applies the answers it pops, one at a time |
| WebRTCStreamerClass.WebRTCStreamer.Destroy | src/WebRTCStreamer.cpp:184-195 | the destructor's statements in order, and then the registered Clients are destroyed one by one |
| StreamerInvariant.StepKeepsInv | src/WebRTCStreamer.cpp:121-350 | every step of every thread keeps the invariant: registered Clients are intact and held under their own id, traversals only hold registered Clients, queues within bounds, the shutdown order |
| StreamerInvariant.ReachableInv | src/WebRTCStreamer.cpp:121-350 | the invariant holds in every state any interleaving can reach |
| StreamerStall.OnlyStalledIsStuck | src/WebRTCStreamer.cpp:238-316 | before the stop, the loop or the output thread can move, or a thread the loop waits for can, unless the state is the stalled one |
| StreamerStall.MovesEventually | src/WebRTCStreamer.cpp:238-316 | from every other state there is a run without a stop that moves the loop or the output thread |
| StreamerStall.StallIsPermanent | src/WebRTCStreamer.cpp:238-316 | nothing but stopping the signalling queue ends the stall: no step handles, sends or changes the registry |
| StreamerStall.StuckForeverIffStalled | src/WebRTCStreamer.cpp:238-316 | the exact condition: no run without a stop ever moves loop or output thread again if and only if the queue is full, the output thread pushes into it under the shared lock and the loop waits for the exclusive lock |
| StreamerStall.StallIsReachable | src/WebRTCStreamer.cpp:238-316 | the stall does happen, against the header's promise of asynchronous communication: a concrete run from the initial state ends in it |
| StreamerWriter.WriterIsServed | src/WebRTCStreamer.cpp:238-316 | where waiting writers go first: however the threads are scheduled, with n clients the readers take at most 5 + 5n steps before a waiting loop can take the lock, or the pipeline has stalled |
| StreamerWriter.WaitEnds | src/WebRTCStreamer.cpp:238-316 | when no reader can move, the loop can take the lock, unless the state is the stalled one |
| StreamerSteps.StepRefines | src/WebRTCStreamer.cpp:240-288 | with the signalling queue at the grain of its mutex: each step is a step of the streamer over the atomic queue, or invisible to it |
| StreamerSteps.RunRefines | src/WebRTCStreamer.cpp:240-288 | so all its runs only visit states the coarser system can reach, and everything proved of those holds |
| StreamerSteps.SameStates | src/WebRTCStreamer.cpp:240-288 | and it reaches every one of them |
| StreamerStepsProgress.CanGoOn | src/WebRTCStreamer.cpp:240-288 | where the coarser system can take a step, some thread can move towards it: the queue loses no call |
| StreamerStepsProgress.OnlyStalledBlocks | src/WebRTCStreamer.cpp:238-316 | at that grain, too, only the stalled state blocks the pipeline before the destructor begins |
| StreamerStepsProgress.StallStays | src/WebRTCStreamer.cpp:238-316 | and the stall lasts until the queue is stopped, whatever spurious wakeups happen in it |
| StreamerStepsProgress.FineShutdownFinishes | src/WebRTCStreamer.cpp:184-195 | at that grain, too, shutdown finishes: a bounded number of steps of the program's threads, plus five for every spurious wakeup and every message that still arrives, and then everything is joined |
| StreamerShutdown.SystemStepLowersRank | src/WebRTCStreamer.cpp:134-142 | after the flag is set every step of a streamer thread lowers one measure, the Clients left in the current traversals included |
| StreamerShutdown.EnvironmentKeepsRank | src/WebRTCStreamer.cpp:47-78 | callbacks, incoming messages and new frames do not raise it |
| StreamerShutdown.StuckMeansJoined | src/WebRTCStreamer.cpp:184-195 | when no streamer thread can move, all are joined, the registry is empty and every Client is destroyed |
| StreamerShutdown.ShutdownFinishes | src/WebRTCStreamer.cpp:184-195 | from every reachable state with the flag set, the stalled one included, every schedule makes boundedly many steps and can only end with everything joined |
| StreamerShutdown.AtMostOneMoreItem | src/WebRTCStreamer.cpp:286-350 | after the flag is set the loop handles at most one more message and at most one more broadcast completes |
| StreamerShutdown.ClientTakesAtMostOneMore | src/WebRTCStreamer.cpp:121-142 | after its flag is set a Client's thread applies at most one more answer |
| StreamerMessages.TwoHopConservation | src/WebRTCStreamer.cpp:47-78 | before the stop: what a Client's callbacks had accepted is, in order, what of it the loop handled, what waits in the signalling queue, what the output thread holds, and its own queue |
| StreamerMessages.SentIsHandledOutputs | src/WebRTCStreamer.cpp:271-316 | what goes to the websocket is exactly the handled output messages that are no disconnects, in order, each made by a Client with that id |
| StreamerMessages.OutputsComeFromRegistered | src/WebRTCStreamer.cpp:238-248 | an output message enters the signalling queue only by the output thread, from the instance registered under its id at that moment |
| StreamerMessages.AnswersReachTheirClient | src/WebRTCStreamer.cpp:261-268 | whatever a Client's thread has to apply is an answer carrying the Client's id |
| StreamerInbound.InboundConservation | src/WebRTCStreamer.cpp:121-131 | for a registered Client: the answers under its id handled since its request are, in order, what its thread has applied, the one in its hand, its queue, and the one the loop is delivering |
| StreamerInbound.ReceivedUntilErased | src/WebRTCStreamer.cpp:145-147 | a Client whose registration has ended was given exactly the answers handled up to that end, and is never given another |
| StreamerIntake.AcceptedFrames | src/WebRTCStreamer.cpp:321-331 | the frames accepted are, in order, those given to pushData before the frames queue was stopped |
| StreamerIntake.PushedFramesAreBroadcast | src/WebRTCStreamer.cpp:321-350 | so what a Client is offered is a contiguous stretch of the frames given to pushData, and what the media thread has not taken waits in the queue |
| StreamerIntake.CallbacksAreConserved | src/WebRTCStreamer.cpp:47-78 | what the callbacks of a Client made, with their kind and body and the id of the peer that asked for the Client, up to the stop of its queue, is what was accepted and is, in order, handled, queued, in the output thread's hand or in its own queue |
| StreamerIntake.MessagesAreTakenIn | src/WebRTCStreamer.cpp:225-236 | before the stop: the inputs handled and queued are, in order, the websocket's messages marked as inputs, but for the one being pushed |
| StreamerService.LoopKeepsHandling | src/WebRTCStreamer.cpp:286-316 | while its queue is not stopped the loop handles a message at least every nine of its own steps, in every schedule |
| StreamerService.ClientKeepsApplying | src/WebRTCStreamer.cpp:121-131 | until its destructor begins a Client's thread applies an answer at least every three of its own steps |
| StreamerService.MediaKeepsBroadcasting | src/WebRTCStreamer.cpp:333-351 | until the destructor begins the media thread completes a broadcast at least every 4 + n of its own steps, n bounding the Clients built |
| StreamerService.OutputKeepsPassing | src/WebRTCStreamer.cpp:238-248 | the output thread completes a pass over the registry at least every 3 + 3n of its own steps |
| StreamerService.PassForwardsOne | src/WebRTCStreamer.cpp:238-248 | a pass forwards, for every Client registered when it begins with something to send, exactly the oldest of its messages |
| StreamerRegistry.FoldOfId | src/utils/SafeUMap.h:14-34 | an id is in the folded registry iff its last request came after its last disconnect, and the instance is the one of the first request since that disconnect |
| StreamerRegistry.RegistryIsFold | src/WebRTCStreamer.cpp:253-316 | the registry is that fold of the handled messages in every reachable state, until the destructor starts to empty it |
| StreamerBroadcast.OffersAreOneSegment | src/WebRTCStreamer.cpp:321-350 | the frames a Client was offered are one contiguous segment of the accepted frames, in order, each once, from its registration on; while registered it has had every frame the broadcast has reached |
| StreamerBroadcast.SegmentEndsWithRegistration | src/WebRTCStreamer.cpp:321-350 | the segment ends at the last broadcast before the registration ended, and never grows again |
| StreamerBroadcast.NoChangeDuringBroadcast | src/utils/SafeUMap.h:38-44 | the set of Clients does not change while a traversal runs |
| RelayModel.EstablishedKeepsInv | src/wsserver.cpp:26-36 | registering keeps: every entry is open, held under its own id, and no connection is held twice |
| RelayModel.ClosedKeepsInv | src/wsserver.cpp:67-77 | closing keeps it |
| RelayModel.RunKeepsRelayInv | src/wsserver.cpp:22-83 | so does every sequence of callbacks |
| RelayModel.NameIsUnique | src/wsserver.cpp:45-51 | so the sender found does not depend on the order of the map |
| RelayModel.ReplyFindsSender | src/wsserver.cpp:37-65 | b's reply to the id it was shown reaches a's connection, stamped b, while both registrations stand |
| RelayModel.SuccessorSurvives | src/wsserver.cpp:31-77 | a connection that replaced another one stays registered, whatever closes, until it closes itself or is replaced |
| RelayModel.ReplyReturnsIff | src/wsserver.cpp:37-65 | an answer to the id one was shown comes back to the sender exactly if the sender is registered; otherwise the receiver was shown its own id and answers itself |
| RelayRegistry.HoldsIffNamedLast | src/wsserver.cpp:26-77 | over any run from the empty map: a connection holds an id exactly if it was the last to be established with that id in its path and has not been closed since |
| RelayRegistry.DeliveredIff | src/wsserver.cpp:37-65 | a message is written to a connection exactly if that connection was the last to ask for the message's id and has not been closed since; mode, type and body are kept |
| RelayRegistry.StampedIff | src/wsserver.cpp:45-58 | the copy carries the id its sender was the last to ask for, or, if there is none, its own |
| RelayClass.Relay.OnEstablished | src/wsserver.cpp:26-65 | the id is the path without its first character, if there is more than that; an existing holder is replaced (HoldsIffNamedLast); then the receive case runs too (there is no break) |
| RelayClass.Relay.OnReceive | src/wsserver.cpp:37-65 | the message goes to the connection registered under its id, stamped with the sender's id |
| RelayClass.Relay.OnClosed | src/wsserver.cpp:67-77 | exactly the entries of this connection go |
| EndToEnd.OfferReachesItsPeerOnly | src/WebRTCStreamer.cpp:61-78 | when the relay handles an offer of a Client, it is delivered to the connection then registered under the Client's id and to nobody else |
| EndToEnd.EveryReceiptIsItsPeers | src/wsserver.cpp:37-65 | nobody ever received a Client's message under an id other than the Client's |
| EndToEnd.AnswerComesFromItsPeer | src/WebRTCStreamer.cpp:225-269 | an answer queued at or applied by a Client was sent by a connection that the relay then knew under that Client's id (or did not know at all, if the id is "server") |
| EndToEnd.ClientBelongsToItsPeer | src/WebRTCStreamer.cpp:258-260 | every Client was built for a request from such a connection |
| EndToEndIntake.EverythingWrittenIsTakenIn | src/wsserver.cpp:37-65 | before the stop: what the relay wrote to the streamer's connection is, in order and marked as input, what the loop has handled, its queue, the message being pushed and those on the way |
| VideoSyncClass.OutputFilter.VideoSyncProcess | 3rdplibs/ffmpeg/fftools/ffmpeg_filter.c:2314-2434 | the decision and the bookkeeping for a frame over the fields; the decision itself is characterised by VfrStep, ShownOnTime, DroppedIff and VscfrStartsWithFirst |
| VideoSyncClass.OutputFilter.VideoSyncFlush | 3rdplibs/ffmpeg/fftools/ffmpeg_filter.c:2321-2332 | at the end of the stream the last frame is repeated the median of its recent repetitions |
| VideoSyncClass.OutputFilter.Finish | 3rdplibs/ffmpeg/fftools/ffmpeg_filter.c:2404-2434 | history, drop and duplication counts, the limit on duplication, the pending flag |
| VideoSyncClass.OutputFilter.SendCopies | 3rdplibs/ffmpeg/fftools/ffmpeg_filter.c:2504-2556 | the copies sent, one by one: first the previous frame, then this one, with consecutive timestamps |
| VideoSyncClass.OutputFilter.FgOutputFrame | 3rdplibs/ffmpeg/fftools/ffmpeg_filter.c:2492-2570 | a frame is one step of the model and sends exactly the decided frames; the end of the stream sends copies only if something was sent before |
| VideoSyncTiming.VfrStep | 3rdplibs/ffmpeg/fftools/ffmpeg_filter.c:2386-2391 | variable rate, any state: a frame is sent, once, exactly if its end is more than -0.6 after the clock; with the clock's timestamp if its end is within 0.6 of that, and otherwise within 1/2 of its own timestamp or the clock's, whichever is later |
| VideoSyncTiming.VfrFollowsInput | 3rdplibs/ffmpeg/fftools/ffmpeg_filter.c:2386-2391 | the same over any run, told by the frames and the timestamps sent alone |
| VideoSyncTiming.SpacedFramesKeepTheirTimes | 3rdplibs/ffmpeg/fftools/ffmpeg_filter.c:2386-2391 | so a stream of frames longer than 0.6 and at least 1.5 apart passes through: each is sent once, within 1/2 of its timestamp |
| VideoSyncTiming.CfrCountsFromZero | 3rdplibs/ffmpeg/fftools/ffmpeg_filter.c:2504-2556 | at constant rate the output of any run is numbered from zero without a gap |
| VideoSyncTiming.ShownOnTime | 3rdplibs/ffmpeg/fftools/ffmpeg_filter.c:2373-2385 | the copies of the previous frame come first, and a frame of non-negative duration that is not behind the clock is first shown itself at most 1.1 output frames before its timestamp and never after it |
| VideoSyncTiming.CfrShowsOnTime | 3rdplibs/ffmpeg/fftools/ffmpeg_filter.c:2373-2385 | the same for every frame after the first of any run at constant rate, in terms of the output's slots |
| VideoSyncTiming.DroppedIff | 3rdplibs/ffmpeg/fftools/ffmpeg_filter.c:2373-2376 | a frame is dropped exactly if it ends more than 1.1 before the clock, or below the drop threshold once something was sent |
| VideoSyncTiming.VscfrStartsWithFirst | 3rdplibs/ffmpeg/fftools/ffmpeg_filter.c:2366-2372 | VSCFR sends the first frame within 1/2 of its own timestamp |
| VideoSyncTiming.EndRepeatsMedian | 3rdplibs/ffmpeg/fftools/ffmpeg_filter.c:2321-2332 | the end of the stream repeats the last frame as often as the median of the last three repetitions, with consecutive timestamps, unless that exceeds the limit |
| VideoSyncTheorems.CfrDriftBounded | 3rdplibs/ffmpeg/fftools/ffmpeg_filter.c:2334-2385 | constant rate, no drop threshold, no duplication exit: the input's end is at most half an output frame ahead after each frame of any run; if input ends never decrease and the first is not negative, it is at least -2.1 |
| VideoSyncTheorems.CfrStepDrift | 3rdplibs/ffmpeg/fftools/ffmpeg_filter.c:2373-2385 | the same for one frame from any state |
| VideoSyncTheorems.VscfrStepDrift | 3rdplibs/ffmpeg/fftools/ffmpeg_filter.c:2366-2385 | at VSCFR the bound is 1/2, but 1 for the frame that starts the clock |
| VideoSyncTheorems.BalancedIff | 3rdplibs/ffmpeg/fftools/ffmpeg_filter.c:2404-2434 | the exact condition under which one frame is accounted for: unless the previous frame is to be repeated more often than frames are sent |
| VideoSyncTheorems.OvertakesIff | 3rdplibs/ffmpeg/fftools/ffmpeg_filter.c:2373-2385 | when that happens, in terms of the drifts the code computes |
| VideoSyncTheorems.NonNegativeNeverOvertakes | 3rdplibs/ffmpeg/fftools/ffmpeg_filter.c:2373-2385 | it does not for durations that are not negative |
| VideoSyncTheorems.NegativeDurationUnbalanced | 3rdplibs/ffmpeg/fftools/ffmpeg_filter.c:2404-2434 | it does for a concrete negative duration |
| VideoSyncTheorems.FramesAccounted | 3rdplibs/ffmpeg/fftools/ffmpeg_filter.c:2404-2434 | over any run whatever: sent = received + dup - drop - (1 if the last frame is pending) - overtaken frames + drops counted twice |
| VideoSyncTheorems.FramesConservedIff | 3rdplibs/ffmpeg/fftools/ffmpeg_filter.c:2404-2434 | without the duplication exit the counters account for a run exactly if no frame was overtaken |
| VideoSyncTheorems.FramesConserved | 3rdplibs/ffmpeg/fftools/ffmpeg_filter.c:2404-2434 | so they do for every run of non-negative durations |
| VideoSyncTheorems.TooLongCountsTwice | 3rdplibs/ffmpeg/fftools/ffmpeg_filter.c:2410-2423 | the duplication exit leaves the pending mark of a frame it has just counted as dropped |
| VideoSyncTheorems.SkippingCountsTwice | 3rdplibs/ffmpeg/fftools/ffmpeg_filter.c:2410-2423 | a run of three frames in which that spoils the count |
| VideoSyncTheorems.SentInOrder | 3rdplibs/ffmpeg/fftools/ffmpeg_filter.c:2504-2556 | over any run the timestamps sent increase, at constant rates by exactly one, and the next one continues them |
| VideoSyncTheorems.TimestampsOrdered | 3rdplibs/ffmpeg/fftools/ffmpeg_filter.c:2492-2570 | the same for a whole stream with its end, where copies are sent only if something was sent before |
| Rounding.LlrintMonotone | 3rdplibs/ffmpeg/fftools/ffmpeg_filter.c:2371-2391 | rounding is monotone (used for every bound above) |
| AudioTimebaseClass.DecoderPriv.AudioSamplerateUpdate | 3rdplibs/ffmpeg/fftools/ffmpeg_dec.c:203-244 | the timebase chosen and the history converted to it, over the fields |
| AudioTimebaseClass.DecoderPriv.AudioTsProcess | 3rdplibs/ffmpeg/fftools/ffmpeg_dec.c:246-281 | the frame's timestamp, duration and timebase and the decoder's history after it |
| AudioTimebaseModel.FallsBackIff | 3rdplibs/ffmpeg/fftools/ffmpeg_dec.c:217-225 | the exact condition of the fallback: a new rate whose least common multiple with the denominator, plus the rate, exceeds INT_MAX; so a denominator that is kept never overflows |
| AudioTimebaseTheorems.DenGrows | 3rdplibs/ffmpeg/fftools/ffmpeg_dec.c:215-231 | without the fallback the new denominator is a multiple of the old one and of the rate |
| AudioTimebaseTheorems.TimebaseRepresentsAll | 3rdplibs/ffmpeg/fftools/ffmpeg_dec.c:251-255 | over any run without the fallback the denominator is a multiple of every rate seen and of every earlier denominator and fits an int |
| AudioTimebaseTheorems.HistoryExact | 3rdplibs/ffmpeg/fftools/ffmpeg_dec.c:233-237 | without the fallback the conversion of the history loses nothing |
| AudioTimebaseTheorems.DurationExact | 3rdplibs/ffmpeg/fftools/ffmpeg_dec.c:274-275 | while the fallback has not fired, the estimated duration is exactly samples / rate |
| AudioTimebaseTheorems.UntimedFollows | 3rdplibs/ffmpeg/fftools/ffmpeg_dec.c:256-261 | while the fallback has not fired, a frame without a timestamp starts exactly where the previous one ends, across changes of rate and timebase |
| AudioTimebaseTheorems.UntimedFramesPlacedExactly | 3rdplibs/ffmpeg/fftools/ffmpeg_dec.c:256-275 | while the fallback has not fired, a run of them is placed exactly at the sum of samples / rate |
| AudioTimebaseTheorems.UntimedStreamStartsAtZero | 3rdplibs/ffmpeg/fftools/ffmpeg_dec.c:256-275 | while the fallback has not fired, with no timestamps at all that sum starts at zero |
| AudioTimebaseTheorems.OutputPts | 3rdplibs/ffmpeg/fftools/ffmpeg_dec.c:277-280 | while the fallback has not fired, the timestamp passed on is the position in the frame's own rate whenever that is a whole number of samples |
| AudioTimebaseTheorems.ExactIff | 3rdplibs/ffmpeg/fftools/ffmpeg_dec.c:233-237 | when nothing is lost, fallback or not: durations exactly if the new denominator is a multiple of the rate, the history exactly if it is one of the old denominator |
| AudioTimebaseTheorems.NoFallbackIsExact | 3rdplibs/ffmpeg/fftools/ffmpeg_dec.c:215-237 | both hold in every state of a run without the fallback |
| AudioTimebaseTheorems.FallbackLosesSomething | 3rdplibs/ffmpeg/fftools/ffmpeg_dec.c:217-223 | with the fallback's own timebase never both hold |
| AudioTimebaseTheorems.FallbackLosesExactness | 3rdplibs/ffmpeg/fftools/ffmpeg_dec.c:217-237 | a stream of two frames for which neither holds |
| AudioTimebaseTheorems.FallbackCanKeepDurations | 3rdplibs/ffmpeg/fftools/ffmpeg_dec.c:217-237 | and one for which the durations stay exact |
| AudioContinuity.StateCountsSamples | 3rdplibs/ffmpeg/libavutil/mathematics.c:168-189 | after every frame, in any timebase, the conversion state is the frame's position plus its number of samples |
| AudioContinuity.InStepIff | 3rdplibs/ffmpeg/fftools/ffmpeg_dec.c:269-275 | so it expects the predicted position exactly if the number of samples is its own conversion to the timebase |
| AudioContinuity.InStepIffOwnRate | 3rdplibs/ffmpeg/fftools/ffmpeg_dec.c:269-275 | while the fallback has not fired that means: exactly if the timebase is one over the rate; otherwise it lags |
| AudioContinuity.WindowIsTight | 3rdplibs/ffmpeg/libavutil/mathematics.c:180-181 | the two bounds computed are the tightest integers around the interval of positions that round to the timestamp |
| AudioContinuity.RoundingIsNoGap | 3rdplibs/ffmpeg/fftools/ffmpeg_dec.c:262-267 | a timestamp that is a rounding of the predicted position does not reset the state |
| AudioContinuity.DirectContinues | 3rdplibs/ffmpeg/fftools/ffmpeg_dec.c:259-271 | without a timestamp, or with one in a fine timebase, a frame starts where the one before it ends, whatever the state |
| AudioContinuity.ContinuesIff | 3rdplibs/ffmpeg/libavutil/mathematics.c:168-189 | in any state, with a correct coarse timestamp: exactly when it does, in terms of the state and the bounds |
| AudioContinuity.InStepContinues | 3rdplibs/ffmpeg/fftools/ffmpeg_dec.c:259-271 | in step it always does |
| AudioContinuity.LaggingContinuesIff | 3rdplibs/ffmpeg/libavutil/mathematics.c:174-188 | lagging, exactly if the predicted position is the lower bound, or the state is overruled and the timestamp happens to be exact |
| AudioContinuity.ContinuesOne | 3rdplibs/ffmpeg/fftools/ffmpeg_dec.c:246-281 | from one frame to the next of the same rate: the whole history and the frame passed on |
| AudioContinuity.PlacedIff | 3rdplibs/ffmpeg/libavutil/mathematics.c:168-189 | the two together, for every frame that says no more about its position than that it follows |
| AudioStreams.ContiguousIff | 3rdplibs/ffmpeg/fftools/ffmpeg_dec.c:246-281 | over any run at one rate, in whatever timebase the first frame chooses: all frames come out exactly where the one before them ends if and only if every later frame meets that condition |
| AudioStreams.DirectStreamIsContiguous | 3rdplibs/ffmpeg/fftools/ffmpeg_dec.c:246-281 | so they do if the timestamps are missing or as fine as that timebase, as when all frames share one |
| AudioStreams.OneRateStreamIsContiguous | 3rdplibs/ffmpeg/fftools/ffmpeg_dec.c:246-281 | and whenever that timebase is one over the rate, whatever those of the timestamps; the timestamps passed on are then contiguous too |
| AudioStreams.KeepsRateIff | 3rdplibs/ffmpeg/fftools/ffmpeg_dec.c:224-231 | which is so, without the fallback, exactly if the first frame's own timebase is not a finer multiple |
| AudioStreams.LaggingStreamIff | 3rdplibs/ffmpeg/fftools/ffmpeg_dec.c:246-281 | with more units a sample, the condition for a coarse timestamp, in terms of its window and the lagging state |
| AudioStreams.FinerTimebaseBreaksContinuity | 3rdplibs/ffmpeg/fftools/ffmpeg_dec.c:229-271 | a stream at one rate that does not meet it: 22050 Hz, first in 1/44100, then in milliseconds |
| AudioStreams.DirectFollows | 3rdplibs/ffmpeg/fftools/ffmpeg_dec.c:256-271 | while the fallback has not fired, across changes of rate: a frame with no timestamp, or a correct one in a fine timebase, starts where the one before it ends |
| AudioStreams.DirectFramesPlacedExactly | 3rdplibs/ffmpeg/fftools/ffmpeg_dec.c:256-275 | and a run of such frames at the sum of samples / rate |
| AudioStreams.RateChangeBreaksContinuity | 3rdplibs/ffmpeg/fftools/ffmpeg_dec.c:233-271 | after a change of rate the state can lag and a correct timestamp be misplaced: a stream of two frames |
| BinaryGcd.AvGcd | 3rdplibs/ffmpeg/libavutil/mathematics.c:35-56 | the binary algorithm returns the greatest common divisor; with a zero argument, the other one |
| BinaryGcd.GcdStep | 3rdplibs/ffmpeg/libavutil/mathematics.c:49-54 | a round (subtract the smaller odd number, shift the zeros out) keeps the divisor |
| BinaryGcd.GcdIsGreatest | 3rdplibs/ffmpeg/libavutil/mathematics.c:35-56 | every common divisor divides it |
| BinaryGcd.GcdOfParts | 3rdplibs/ffmpeg/libavutil/mathematics.c:44-55 | the powers of two contribute the smaller one |
| AudioAccuracy.GapIff | 3rdplibs/ffmpeg/fftools/ffmpeg_dec.c:262-266 | a gap is exactly a timestamp that is at least one of its own ticks after the predicted position |
| AudioAccuracy.PlacedNear | 3rdplibs/ffmpeg/fftools/ffmpeg_dec.c:256-270 | in any state a frame with a timestamp is placed within half a tick of its timebase plus one unit of it; within half a unit if its timebase is fine, it is the first, or there was a gap |
| AudioAccuracy.PassedOnNear | 3rdplibs/ffmpeg/fftools/ffmpeg_dec.c:277-280 | the timestamp passed on is the position in the frame's rate, to the nearest; the duration is its samples |
| AudioAccuracy.HistoryNear | 3rdplibs/ffmpeg/fftools/ffmpeg_dec.c:233-237 | a change of rate keeps the history to the nearest unit, in the fallback, too |
| AudioAccuracy.TimestampsAreFollowed | 3rdplibs/ffmpeg/fftools/ffmpeg_dec.c:256-270 | so over any run the timestamps never drift from the input's |
| Divisibility.LcmIsMultiple | 3rdplibs/ffmpeg/fftools/ffmpeg_dec.c:225 | den / gcd * rate is a common multiple |
| Divisibility.LcmIsLeast | 3rdplibs/ffmpeg/fftools/ffmpeg_dec.c:225 | and divides every other one |
| MuxTimestampsClass.MuxStream.MuxFixupTs | 3rdplibs/ffmpeg/fftools/ffmpeg_mux.c:166-206 | the repaired packet and the new last dts, or the refusal with the last dts unchanged |
| MuxTimestampsClass.MuxStream.WritePacket | 3rdplibs/ffmpeg/fftools/ffmpeg_mux.c:209-248 | nothing happens at the size limit, a refused packet is not counted, a counted one may still fail |
| MuxTimestampsModel.GuessIsMedian | 3rdplibs/ffmpeg/fftools/ffmpeg_mux.c:172-175 | the guess is the median of pts, dts and last dts + 1, and nothing else is |
| MuxTimestampsModel.FirstGuessIsPts | 3rdplibs/ffmpeg/fftools/ffmpeg_mux.c:172-175 | for the first packet that is its pts |
| MuxTimestampsModel.GuessIn64Bits | 3rdplibs/ffmpeg/fftools/ffmpeg_mux.c:172-175 | computed with 64-bit wrap-around the result is the same |
| MuxTimestampsModel.RepairedToMedian | 3rdplibs/ffmpeg/fftools/ffmpeg_mux.c:166-198 | a dts after its pts: on exit both are the median of pts, dts and last dts + 1, raised to the smallest dts that may follow |
| MuxTimestampsModel.UnchangedIffInOrder | 3rdplibs/ffmpeg/fftools/ffmpeg_mux.c:166-201 | a packet is left alone exactly if it is in order |
| MuxTimestampsModel.DtsNotAfterPts | 3rdplibs/ffmpeg/fftools/ffmpeg_mux.c:167-198 | dts is not after pts on exit when both were set |
| MuxTimestampsModel.PtsFollowsDts | 3rdplibs/ffmpeg/fftools/ffmpeg_mux.c:172-198 | the pts is moved only if the new dts would be after it, and then to the dts; a missing pts stays missing, and a packet without a dts is left alone |
| MuxTimestampsModel.DtsFollowsLast | 3rdplibs/ffmpeg/fftools/ffmpeg_mux.c:177-198 | dts follows the last one and is moved no further than needed |
| MuxTimestampsModel.RefusedIff | 3rdplibs/ffmpeg/fftools/ffmpeg_mux.c:166-190 | a packet is refused exactly if exit_on_error is on and its own dts is too early: the guess made for a dts after its pts never changes that |
| MuxTimestampsModel.OutDtsIncrease | 3rdplibs/ffmpeg/fftools/ffmpeg_mux.c:166-201 | over any run of packets with a dts, exit_on_error off, the output dts strictly increase (never decrease for non-strict formats) |
| MuxTimestampsModel.OrderAcrossGapIff | 3rdplibs/ffmpeg/fftools/ffmpeg_mux.c:166-201 | across a packet without a dts, order with an earlier packet is kept exactly if the next packet's own timestamp is late enough |
| MuxTimestampsModel.WrittenInOrderIff | 3rdplibs/ffmpeg/fftools/ffmpeg_mux.c:166-201 | over any run, with or without missing dts: the dts written increase exactly if every packet after one without a dts resumes no earlier than the last one written |
| MuxTimestampsModel.MissingDtsBreaksOrder | 3rdplibs/ffmpeg/fftools/ffmpeg_mux.c:177-201 | a stream that does not: 10, none, 3 |
| StreamSpecifierCode.StreamSpecifierParse | 3rdplibs/ffmpeg/fftools/cmdutils.c:1012-1225 | the pointer-advancing loop computes the grammar; every result is well formed, so the metadata assertion cannot fail |
| StreamSpecifierCode.StreamSpecifierMatch | 3rdplibs/ffmpeg/fftools/cmdutils.c:1227-1337 | the early-stopping scan over the shortened list returns true iff the stream is among the candidates that fit and its first occurrence there is at the index |
| StreamSpecifierCode.Scan | 3rdplibs/ffmpeg/fftools/cmdutils.c:1286-1334 | the scan finds the stream iff it is among the fitting ones, and counts those before it |
| StreamSpecifierCode.ScanDecides | 3rdplibs/ffmpeg/fftools/cmdutils.c:1236-1334 | for each shortening of the list, comparing that count with the index decides the match |
| StreamSpecifierCode.CheckStreamSpecifier | 3rdplibs/ffmpeg/fftools/cmdutils.c:1339-1351 | parsing and matching together; the matcher's assertion on stream ids holds for whatever was parsed |
| StreamSpecifierCode.IndexedMatchIsUnique | 3rdplibs/ffmpeg/fftools/cmdutils.c:1331-1332 | an indexed specifier matches at most one stream |
| StreamSpecifierCode.IndexedMatchExists | 3rdplibs/ffmpeg/fftools/cmdutils.c:1331-1332 | and one at all exactly if there is an entry at the index that repeats no earlier one |
| StreamSpecifierCode.MatchesUnindexed | 3rdplibs/ffmpeg/fftools/cmdutils.c:1236-1252 | without an index, matching is being a candidate that fits, so the list may be cut to the stream itself |
| StreamSpecifierCode.MatchMeans | 3rdplibs/ffmpeg/fftools/cmdutils.c:1286-1334 | a stream that matches is in the program, group or list the specifier names (the first of that id), has the media type, no attached picture where those are excluded, the metadata (the first entry under the key, in any case), is usable if asked and has every disposition; without an index that is also sufficient |
| StreamSpecifierCode.DictGetsFirst | 3rdplibs/ffmpeg/fftools/cmdutils.c:1298-1306 | the tag found is that of the first entry under the key, in any case |
| StreamSpecifierRoundTrip.RoundTrip | 3rdplibs/ffmpeg/fftools/cmdutils.c:1026-1193 | every specifier that can be said, an index that wraps included, printed part by part and parsed, comes back |
| StreamSpecifierRoundTrip.ReprintIsEquivalent | 3rdplibs/ffmpeg/fftools/cmdutils.c:1012-1225 | what was parsed, printed and parsed again is the same |
| StreamSpecifierRemainder.RemainderIsKept | 3rdplibs/ffmpeg/fftools/cmdutils.c:1195-1213 | what follows a complete specifier after a ':' is handed back as the remainder if one is allowed, and makes the whole invalid otherwise |
| StreamSpecifierRemainder.SecondIsRefused | 3rdplibs/ffmpeg/fftools/cmdutils.c:1038-1148 | after any beginning, a second media type, a second program, group or stream id, or a second set of dispositions is refused |
| StreamSpecifierRoundTrip.IndexKeptIff | 3rdplibs/ffmpeg/fftools/cmdutils.c:1027-1037 | a number is kept as the index exactly if it fits 32 bits |
| StreamSpecifierRoundTrip.WrappedIndexMatchesAll | 3rdplibs/ffmpeg/fftools/cmdutils.c:1027-1037 | a number that wraps to a negative one is no index: the specifier matches every stream |
| StatsTemplateClass.Unescape | 3rdplibs/ffmpeg/fftools/ffmpeg_mux_init.c:207-244 | the buffer holds the text up to the delimiter; an empty text leaves the position where it was |
| StatsTemplateClass.EncStats.ReadRound | 3rdplibs/ffmpeg/fftools/ffmpeg_mux_init.c:280-364 | one round of the loop: a literal, a directive, or the error and what was stored before it |
| StatsTemplateClass.EncStats.EncStatsInit | 3rdplibs/ffmpeg/fftools/ffmpeg_mux_init.c:279-364 | the components appended and the error, for every template |
| StatsTemplateModel.ParseRound | 3rdplibs/ffmpeg/fftools/ffmpeg_mux_init.c:279-364 | a round that does not fail consumes input |
| StatsTemplateTheorems.SpellingIsRead | 3rdplibs/ffmpeg/fftools/ffmpeg_mux_init.c:224-231 | any spelling of a text, escaped or not, up to a delimiter or the end is read as that text |
| StatsTemplateTheorems.ReadIsSpelled | 3rdplibs/ffmpeg/fftools/ffmpeg_mux_init.c:224-231 | what was read is what the consumed characters spell |
| StatsTemplateTheorems.ResolveIff | 3rdplibs/ffmpeg/fftools/ffmpeg_mux_init.c:322-357 | a name resolves to a directive exactly if it is its name and the phase allows it |
| StatsTemplateTheorems.ParseIff | 3rdplibs/ffmpeg/fftools/ffmpeg_mux_init.c:279-364 | parsing succeeds with given components exactly if the template spells them, no literal is empty or next to another, and the phase allows every directive |
| StatsTemplateTheorems.RoundTrip | 3rdplibs/ffmpeg/fftools/ffmpeg_mux_init.c:279-364 | escaped, printed and parsed, such a list of components comes back |
| StatsTemplateTheorems.ReprintIsEquivalent | 3rdplibs/ffmpeg/fftools/ffmpeg_mux_init.c:279-364 | a template that parses is equivalent to its printed form |
| StatsTemplateErrors.RefusedName | 3rdplibs/ffmpeg/fftools/ffmpeg_mux_init.c:322-357 | a name is refused for the phase exactly if it is the name of a directive the phase does not allow, and as unknown exactly if it is nobody's |
| StatsTemplateErrors.FirstErrorDecides | 3rdplibs/ffmpeg/fftools/ffmpeg_mux_init.c:306-357 | the first bad directive stops the parser: what was written before it is stored, plus a blank component if its brace was closed, and the error says whether it was empty, unclosed, of the wrong phase or unknown |
| StatsTemplateTheorems.PhasesAgree | 3rdplibs/ffmpeg/fftools/ffmpeg_mux_init.c:322-341 | a template good before and after encoding means the same in both |

## Left out

- libdatachannel, libwebsockets, JSON, SDP and logging: messages are records (id, mode, type, body), callbacks are steps of the environment, building a client and closing its peer connection are steps that terminate.
- Malformed JSON at the streamer, exceptions in callbacks and failing allocations; the relay's own parse failure is the `None` case of its data.
- Data races and memory ordering below the level of the mutexes and of the atomic flags: a read of a flag is one step.
- Wall-clock time: a timeout is a step that a sleeping timed pop may take at any moment.
- Fairness: termination is proved as a bound on the steps of every schedule, not under an assumption on the scheduler.
- Reconnection of the websocket: the connection between streamer and relay stays open, messages on it are delivered in order.
- `VideoProducer.cpp` and the two `main` functions: codec calls, sleeping and signal handling.
- StreamerSteps.FineApply: only the signalling queue is refined to the small steps of `QueueMachine` inside the streamer; the frames queue and the Clients' queues stay atomic there, each with the refinement and wakeup theorems of `QueueTheorems` on its own.
- SafeUMapClass.SafeUMap.Traverse: the registry inside the streamer is the map and the lock conditions of `StreamerModel`, because a traversal there is interrupted between callbacks; the class shows each call on its own.
- BlockingQueueClass.BlockingQueue.Wait: each method body is what one thread executes while it owns the mutex; that other threads run in between is expressed by the machine's runs, not by the method.
- WebRTCStreamerClass.WebRTCStreamer.PushData: a frame is an identity, its bytes and sample time are not modelled, and `sendFrame` only records that it was offered, whether or not the track is open.
- WebRTCStreamerClass.WebRTCStreamer.DestroyClient: Client objects are values in a map from instances, so a shared pointer is an instance number; reference counting is replaced by the proof that only registered clients are used.
- RelayClass.Relay.OnReceive: `lws_write` always succeeds, and the header copy limit of 1024 characters is not modelled.
- VideoSyncClass.OutputFilter.VideoSyncProcess: doubles are reals, so neither the rounding of timestamps nor the single precision of `llrintf` and `lrintf` is captured; passthrough and drop modes, frame durations on output and key-frame flags are left out.
- VideoSyncClass.OutputFilter.FgOutputFrame: the audio branch, a failing `sch_filter_send` and the closing of the output are left out; the counters at the end of the stream are computed but no law about them is claimed.
- AudioTimebaseClass.DecoderPriv.AudioTsProcess: timestamps and intermediate products are unbounded integers; only the denominator is shown to stay in range. `av_rescale_rnd` has its mathematical meaning, not its 128-bit code.
- MuxTimestampsClass.MuxStream.MuxFixupTs: starts after the rescaling to the stream's timebase (line 166); dropping all timestamps in the drop mode comes before that.
- StreamSpecifierCode.StreamSpecifierParse: `strtol`, `av_opt_eval_flags` and `av_get_token` are parameters; the round trip assumes that they read back what the printer writes, and `StreamSpecifierLibrary` has a library that does. Strings may contain a NUL.
- StatsTemplateClass.EncStats.EncStatsInit: the mutex, the output file and the warning about missing input data are left out.
- FFmpeg's scheduler (only its header is in the repository), filters, codecs, option tables and file setup, x264, OpenSSL and the platform wrappers.
