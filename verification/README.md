# A verified model of the CC3220SF Wi-Fi host driver

The repository holds the host side of the SimpleLink driver for the CC3220SF: a message protocol over SPI
(`driver.c`, `spawn.c`), a connection manager (`slwificonn.c`) and a polled device driver above both
(`cc3220sf.c`). This project models that code in Dafny and proves what it keeps over every run. All line numbers
below are those of the repository.

Each part has a model on values, with its properties proved for every interleaving, run or byte stream, and a class
whose methods update the source's own fields. For the two concurrent protocols the methods are the source's functions
with their loops: between any two atomic actions of the code that runs, a schedule lets the other threads and the
interrupt do whatever the protocol allows, and all of it together is proved to be a run of the protocol, so that what
holds of every run holds of the code. For the rest the methods are proved to do exactly what the value model says.

* **Who reads the next message.** `RxProtocol` is the protocol of the receive interrupt, any number of command
  threads and the spawn thread, one atomic action per step, with the 8-bit counters, the interrupt mask, the wait
  flag, two binary sync objects and the global lock. `RxSafety` proves that no message and no stored event is left
  without somebody bound to serve it, exactly as long as no comparison of the 8-bit unit counters misses, `RxDrain`
  that every message is read under any scheduler, `RxWrap` that such a comparison can miss. `RxLedger` keeps the
  accounts of every run (interrupts, messages, events, responses, units, signals) from what the steps are, and
  `RxPaths` tells the threads' ways from the points they come to. `RxDriver` is the class, with the read loop of a
  command and the two loops of the spawn thread.
* **The action pool.** `PoolSpec` has the free, active and pending lists with the bitmap, `PoolWake` the question
  whether a waiter is always woken, `PoolStop` the shutdown of that pool, `PoolHeap` the array with its `NextIndex`
  links and what the fatal-error broadcast does to them.
* **The wire.** `Wire` is the sync pattern and the byte stream, `HdrScan` the header reader, `Frames` what it does on
  streams of messages, `Payload` the three payload readers, `Messages` whole messages, `MsgWrite` the writer,
  `Align` the length arithmetic they share.
* **Flow control and counting.** `TxFlow` is the machine of data writers, data readers, commands and the spawn thread
  around the credit counter, the transmit lock, the global lock and the counters; `TxSafety` its properties;
  `TxLedger` its accounts over every run, `TxWake` how a sleeping writer gets to its packets, `TxPaths` the calls' ways;
  `TxDriver` the class, with the loops of a data write and of a command.
* **Stored events** (`MsgList`) and the **timeout meter** (`TimeoutMeter`).
* **The connection manager.** `WifiSpec`, `WifiSafety`, `WifiRuns`, the wake-up question in `WifiWake`, what one event
  does to every field in `WifiMoves`, and the class in `WifiConn`.
* **The polled driver.** `WlanExec`, `WlanRuns`, when each state is entered in `WlanMoves`, and the class in `WlanDriver`.

## Where the code does not do what its design intends

Each of these has a lemma with a run or an input that shows it, and, where the property has one, the exact condition.

* A release wakes by ActionID while requests block by socket: two actions on one socket strand a waiter
  (`PoolWake.MixedActionsStrand`, `PoolWake.ReleaseStrandsIff`, `PoolWake.NoLostWakeUp`).
* A thread between its test of the stop flag and the protection lock can make a stop wait for ever. Which ones do is
  decided at the sweep (`PoolStop.StopFailsIff`): any in a release; and a woken waiter if the object it goes on with
  would not end by itself, if its key is taken, or if it shares the key with another such waiter.
  `PoolStop.BargedStop` is a run that fails, `PoolStop.LoneWaiter` one that depends on the operation.
* The fatal-error broadcast wakes the waiters without unlinking them. Their next turns leave links that are no lists,
  if and only if there was a waiter (`PoolHeap.ListsSurviveIff`, `PoolHeap.BroadcastRun`).
* When the number of outstanding units is a multiple of 256 the spawn thread's comparison misses them, and it goes to
  sleep over an unread message (`RxSafety.StepAnswers`, `RxSafety.NeverStrandedIff`, `RxWrap.WrapStrandsMessage`).
* A filler of 1 to 3 bytes that makes the words up to the header equal costs the message (`Frames.HeaderFoundIff`,
  `Frames.LostStream`).
* A truncated command response can leave its last word unread (`Payload.CmdTakenIff`); the next header is found all
  the same, and then even behind a filler that would have cost it (`Messages.NextMessageFound`).
* A receive buffer that is sent as payload, and is not whole words, is announced shorter than it is sent
  (`MsgWrite.HeaderCountsIff`).
* A receive message for a socket nobody waits on, read by the spawn thread, takes one off the count of API calls
  (`TxSafety.CountAtQuiescence`, `TxSafety.StrayCount`); an abort exit of a data call keeps the transmit lock for
  good (`TxSafety.AbortBlocksData`).
* Each wrap of the timestamp counter costs the timeout meter one tick (`TimeoutMeter.DeltaIsMeasured`), and a poll
  after one that reported expiry need not report it again (`TimeoutMeter.ExpiresAgainIff`).
* The connected region can be entered without a MAC_CONNECT (`WifiRuns.SilentIff`, `WifiRuns.SilentRun`); idle
  intervals follow the documented series only below 32768 s (`WifiRuns.IdleSeriesIff`), and for some settings one of
  them comes to zero and the machine sleeps for ever (`WifiWake.AlwaysWakesIff`, `WifiWake.SleepingRun`). The notes
  give 2 s as the first recovery delay; the code raises the level first, so it is 5 s (`WifiRuns.BackoffOverRuns`).

## Model

| member | source | states |
|---|---|---|
| RxProtocol.StepInv | driver.c:747-764 | every atomic action keeps the structural invariant: the lock's owner and the threads' positions agree, the wait flag is up only inside a command, the mask and the reader's position give the number of unread interrupts, the unit counters agree modulo 256 |
| RxProtocol.PendingTestIsExact | driver.c:1628-1628 | in every run at most two interrupts are unread, the 8-bit test RxIrqCnt != RxDoneCnt says exactly whether one is, and outside the count the mask says so too |
| RxSafety.NoStrandedMessage | driver.c:1736-1838 | in every interleaving, while a message is unread and the spawn thread has not gone to sleep over its units, somebody is reading it, or the lock's owner will test again and is signalled if asleep, or a command is before its final test, or a unit is outstanding that the running or signalled spawn thread will try |
| RxSafety.StepAnswers | spawn.c:68-87 | each action hands the duty to read the masked message, and to handle stored events, on to somebody; where nothing is stranded an action strands something if and only if it is a spawn comparison with a positive multiple of 256 units outstanding and no signal on its way |
| RxSafety.NeverStrandedIff | spawn.c:80-87 | in every run nothing was ever stranded if and only if no spawn comparison missed its units |
| RxSafety.OversleptIsAWrap | spawn.c:80-87 | the spawn thread sleeps over units only with a positive multiple of 256 of them outstanding, and after a comparison that missed |
| RxSafety.RestIsDrained | spawn.c:114-125 | when no thread can move nothing is unread, unless the spawn thread sleeps over units; if no command waits for its response, nothing is stored and every thread is back where it started, and a unit is outstanding exactly if the spawn thread sleeps over it |
| RxDrain.StepDescends | driver.c:1847-1957 | every action other than an interrupt or a new call lowers a measure, whoever is scheduled |
| RxDrain.EveryMessageIsRead | driver.c:812-875 | after the last interrupt and call at most the measure's number of actions follow, and when none can follow and no spawn comparison missed, every message has been read; no fairness is assumed |
| RxWrap.WrapStrandsMessage | spawn.c:80-87 | a reachable run with 256 outstanding units ends at rest with a message unread and the interrupt masked |
| RxLedger.BooksBalance | driver.c:1713-1960 | in every run the interrupts are the messages read and those unread; the events commands have read are those the spawn thread has handled and those stored; the commands started are those answered and the one waiting; the units given are those finished and those outstanding; the 8-bit counters are these sums modulo 256 |
| RxLedger.RestIsSettled | driver.c:1766-1779 | at rest with no command waiting every event read has been handled and every command answered, and unless the spawn thread sleeps over units every interrupt's message has been read and every unit finished |
| RxLedger.FlagsAreLast | driver.c:747-764 | in every run the mask and the two sync objects are what was last done to them: who masks and unmasks, who signals and who takes the signal |
| RxPaths.StepReachesIff | driver.c:1713-1841 | in every run a command or the spawn thread comes to a point of its code exactly when the test that leads there says so |
| RxDriver.Driver.RxIrqHandler | driver.c:747-764 | masks, counts and either signals the waiting command or hands a unit to the spawn thread: the protocol's interrupt step |
| RxDriver.Driver.ReadUntilResponse | driver.c:1736-1814 | the read loop of a command, others interleaved at will, is a run of the protocol, ends only when the command's own response has been read, and leaves the books balanced: every event read is handled or stored |
| RxDriver.Driver.MsgReadCmdCtx | driver.c:1713-1841 | the loop, the signal for stored events, the unlock and the last test are a run of the protocol |
| RxDriver.Driver.CmdOp | driver.c:810-876 | a whole command is a run of the protocol, returns only after its own response has been read, and leaves the books balanced |
| RxDriver.Driver.MsgListProcess | driver.c:3121-3153 | so is the pass over the stored events |
| RxDriver.Driver.MsgReadSpawnCtx | driver.c:1846-1960 | and one unit, in which a command may have read the message first |
| RxDriver.Driver.SpawnWaitForEvent | spawn.c:68-87 | and the spawn thread's wait with its two loops, which leaves the books balanced |
| RxDriver.Driver.UnreadIsSeenTo | driver.c:1736-1838 | between any two actions of that code an unread message is seen to by somebody, unless the spawn thread sleeps over its units |
| PoolSpec.ApplyInv | driver.c:2342-2519 | allocate, re-contend and release keep the invariant: every object in exactly one place, the bitmap equal to the keys of the active objects, only selects sharing a key |
| PoolSpec.MutualExclusion | driver.c:2376-2409 | in every run a bit other than the select's is on exactly when one active object holds that key, a set select bit has an active select, every object is in one place and the protection lock is never left held |
| PoolSpec.ActiveHasBit | driver.c:2472-2486 | an active object always finds its bit on, so the two early returns that keep the lock are unreachable for it |
| PoolWake.MatchIsSameKey | driver.c:2453-2469 | if each socket is used with one action and each action is keyed one way, matching by ActionID is waiting on the same key |
| PoolWake.RequestGrantedIff | driver.c:2342-2411 | a request that finds a free object becomes active if and only if nobody active holds its key or it is a select without a socket; otherwise it waits, or from the spawn thread gets nothing and changes nothing |
| PoolWake.WokenIs | driver.c:2453-2469 | a release wakes exactly the first waiter of the pending list with its action and no socket or its own, and moves no other |
| PoolWake.ReleaseStrandsIff | driver.c:2453-2469 | a release leaves no waiter stranded if and only if nobody but the waiter it picks wants the key, or that waiter wants it, or one for the key is already awake |
| PoolWake.NoLostWakeUp | driver.c:2376-2411 | under that pairing discipline, in every run with barging threads, a pending object's key is on or a woken waiter for it is in hand |
| PoolWake.MixedActionsStrand | driver.c:2459-2460 | a three step run with two actions on socket 0 that leaves a waiter asleep with no bit on and nobody awake |
| PoolHeap.ActionPool.constructor | driver.c:647-661 | the array of objects starts as one free list in index order |
| PoolHeap.ActionPool.RemoveFromList | driver.c:2588-2617 | unlinks exactly the item from its chain and touches no link outside the list |
| PoolHeap.ActionPool.Acquire | driver.c:2342-2396 | on the linked array, allocation up to the wait is the pool's allocate step, the pool empty and spawn cases included |
| PoolHeap.ActionPool.Recontend | driver.c:2376-2411 | a woken waiter's turn of the loop is the pool's resume step |
| PoolHeap.ActionPool.FindWaiter | driver.c:2453-2466 | the search returns the first waiter on the chain that matches, or the end marker |
| PoolHeap.ActionPool.Release | driver.c:2437-2519 | a release is the pool's release step and signals the waiter it wakes; while stopping it only deletes the sync object and counts it |
| PoolHeap.ActionPool.ReleaseAll | driver.c:2524-2583 | signals all active and pending objects and deletes the sync objects of exactly the free ones, once each |
| PoolHeap.PushLinkedMakesCycle | driver.c:2394-2396 | a waiter that pushes itself onto the list it is still on, at any position, leaves links from which no list can be walked |
| PoolHeap.TurnTangles | driver.c:2376-2422 | the turn of a waiter that is still linked leaves pending links that run in a circle or into the active list, whether its key is on or off; and tangled links stay tangled |
| PoolHeap.ListsSurviveIff | driver.c:2883-2886 | the two lists survive the turns of the waiters the broadcast wakes, in any order, if and only if there are none |
| PoolHeap.ActionPool.Broadcast | driver.c:2883-2886 | signals the sync object of every object and leaves the lists alone |
| PoolHeap.ActionPool.WakeUps | driver.c:2376-2422 | the woken waiters run their turns on the array: it is two disjoint lists afterwards if and only if nobody was pending |
| PoolHeap.BroadcastRun | driver.c:2883-2886 | two requests for one action and a broadcast: the links are no lists any more |
| PoolStop.DeletedOnce | driver.c:2398-2405 | in every run a sync object is deleted once if its object is gone and otherwise never, and the counter is the number deleted |
| PoolStop.StopCompletes | driver.c:2524-2583 | after a clean sweep, once all have finished each sync object was deleted exactly once and the counter is the pool size |
| PoolStop.StopFailsIff | driver.c:2398-2449 | read off the pool at the sweep: the counter never reaches the pool size, however the run goes on, if and only if some thread is between its test of the flag in a release and the lock, or some woken waiter is past its test and either operations left to themselves do not end, or its key is on, or another such waiter has the same key; and after any other sweep every continuation can still be completed |
| PoolStop.BargedStop | driver.c:2376-2405 | a reachable run: two objects, a waiter woken by a release, its key taken by a third request, the test of the flag, the stop, the sweep; the waiter pends unsignalled and the stop is doomed |
| PoolStop.LoneWaiter | driver.c:2407-2426 | without the third request the same stop is doomed if and only if the waiter's operation does not end by itself |
| Align.Align4IsLeast | driver.c:1337-1343 | the aligned length is the least multiple of 4 not below the length |
| Wire.TagIsCheckedModFour | driver.c:72-86 | a tagged sync, with any SPI error bits, is accepted exactly when the two counts agree modulo 4 |
| Wire.UntaggedIsAcceptedIff | driver.c:72-86 | an untagged copy of the pattern is accepted for every count exactly when the pattern's bit 2 is clear |
| Wire.NoSyncAcrossSyncs | driver.c:82-86 | if every shift of the pattern differs from it in a bit that counts, no window across two consecutive syncs of any tag looks like a sync |
| Wire.Link.Read | driver.c:2087-2088 | a read stores exactly the next bytes of the stream at the place given and nothing else, or does not complete |
| HdrScan.SkipEqualWords | driver.c:2087-2100 | the loop over equal words leaves the window at the first word that differs from its successor |
| HdrScan.HuntSync | driver.c:2103-2134 | the scan over shifts 0 to 4 finds the first sync window of the stream and leaves the word after it in the buffer |
| HdrScan.SkipDoubles | driver.c:2165-2169 | repeated syncs are skipped word by word |
| HdrScan.RxHdrRead | driver.c:2068-2180 | the reader succeeds exactly when the stream has a header for it, returns its 8 bytes, stops behind them and counts one sequence number |
| Frames.SlidesIff | driver.c:2091-2093 | the first loop slides n words or more if and only if the first n+1 words are equal |
| Frames.HeaderFoundIff | driver.c:2087-2178 | from any byte offset, past any filler and any number of syncs, the reader finds the header that follows, if and only if not both the filler is 1 to 3 bytes and the words up to the header are equal |
| Frames.BackToBackFound | driver.c:2165-2169 | with syncs back to back the header is found with no assumption on false syncs, for a pattern no shift of which looks like itself |
| Frames.LostStream | driver.c:2091-2093 | for every such pattern a stream whose message the reader misses |
| Frames.StreamReceivedIff | driver.c:2068-2180 | over a stream of any number of messages the reader takes exactly their headers, in order and to the last, if and only if none is lost to its filler |
| Frames.AlignedStreamReceived | driver.c:2091-2134 | with word-aligned fillers every message is received |
| Frames.LeftoverIsFiller | driver.c:1565-1573 | a word left over by the previous reader never costs the next message |
| Payload.CmdTakenIff | driver.c:1522-1573 | a response of actual size A into room for L takes its aligned length, except exactly one word less when A > L and (A-1) mod 4 < L mod 4 |
| Payload.CmdTakenExactly | driver.c:1534-1573 | the stream stays aligned for every response if and only if the room is a multiple of 4 |
| Payload.ReadCmdPayload | driver.c:1516-1576 | stores the first min(A,L) bytes and touches nothing else of the buffer, takes the bytes above, reports the actual length, and for A <= 0 sets the room to zero and reads nothing |
| Payload.ReadAsync | driver.c:1337-1363 | takes the aligned length for every 16-bit length, stores the words that fit behind the header and nothing else, and its 16-bit remainder never wraps |
| Payload.ReadRecv | driver.c:1392-1502 | for a known socket stores the argument block and exactly the announced bytes, so nothing behind the caller's room if no more are announced, and takes the block and their aligned length; for an unknown one stops after 4 bytes |
| Messages.ReadHeader | driver.c:2068-2180 | on a well formed message that is not lost the reader ends behind its header |
| Messages.ReadEvent | driver.c:1318-1363 | an event of any length leaves the stream at the next message and the buffer as header, fitting payload words and zeros |
| Messages.ReadEvents | spawn.c:80-87 | the spawn thread's loop takes exactly the messages of the stream that can be read, one per unit, hands on the kept bytes of each and ends behind the last |
| Messages.StreamOfEvents | spawn.c:80-87 | of a stream of events none of which is lost all are read, to the end of the last, and of each the header and what fits of its payload is kept, in order |
| Messages.ReadStream | spawn.c:80-87 | the loop on such a stream does so |
| Messages.ReadResponse | driver.c:1506-1576 | a command response, with or without a payload or room for one, leaves its arguments and payload with the caller and, for a payload, the stream at the next message, or one word before it in the one family above |
| Messages.NextMessageFound | driver.c:1565-1573 | the next header, behind any filler of its own, is always found if a word was left over, and otherwise if and only if it is not lost to its filler |
| MsgWrite.PayloadsAreJoined | driver.c:1189-1243 | for all lengths the payload transactions are whole words and carry the first payload, directly followed by the second, and at most 3 bytes of padding |
| MsgWrite.Bus.WriteJoined | driver.c:1190-1230 | the three transactions of the joined write, and the caller's first length rounded down |
| MsgWrite.Bus.WritePayloads | driver.c:1189-1243 | which payloads are sent for which lengths |
| MsgWrite.MsgWrite | driver.c:1131-1252 | sync, header, descriptors, receive buffer if its length was negative, payloads; unaligned descriptors with payloads are refused after they were written; the header in the log announces exactly the bytes logged behind it, for a length computed from descriptors and payloads and below 65536 in all, if and only if the receive buffer sent is whole words |
| MsgWrite.HeaderCountsIff | driver.c:1140-1148 | the same about the transactions of a command |
| MsgWrite.CommandOnTheWire | driver.c:1165-1243 | what the device receives is descriptors, receive buffer and payloads without a gap, in whole words |
| TxFlow.PacketsCover | driver.c:1038-1038 | the packets reserved are the least number that covers the payload; an empty payload reserves one, or none if packets are one byte |
| TxFlow.StepKeeps | driver.c:1027-1128 | every action of a call, and a fatal error, keeps the invariant on locks, credit, wake-up and counts |
| TxSafety.CreditNeverUnderflows | driver.c:1112-1117 | in every interleaving a write that takes its packets leaves the credit at FLOW_CONT_MIN or above and a read at one less, although message reads may lower it in between; the 8-bit cast loses nothing and the packets cover the payload |
| TxSafety.NoLostCredit | driver.c:1292-1306 | a data call asleep over enough credit has been signalled, or the message read that brought it is about to signal |
| TxSafety.TransmitLockAtRest | driver.c:926-987 | when every call has returned the transmit lock is free if and only if none returned by an abort exit |
| TxSafety.AbortBlocksData | driver.c:1081-1110 | after an abort exit with the lock no other data call ever passes it |
| TxSafety.CallsAreCounted | driver.c:2709-2784 | the API counter is the number of calls between increment and decrement less the spawn reads that aborted, positive exactly when something is in flight if there are none; every request of the global lock was released once, is open, or was refused |
| TxSafety.CountAtQuiescence | driver.c:2949-2971 | with every call returned the counter is zero if and only if no spawn read took the abort exit, and both locks are free |
| TxSafety.StrayCount | driver.c:1461-1467 | one receive message without a waiter, read in the spawn context, leaves all quiet and the counter at -1 |
| TxLedger.BooksBalance | driver.c:1291-1306 | in every run the credit is what the last message reported, FLOW_CONT_MIN before the first, less the packets taken since; the packet size is the one last reported; the signal of credit and the restart flag are what was last done to them; every counter is the number of its steps |
| TxLedger.ReservesByTheReport | driver.c:1038-1038 | a writer reserves the fewest packets of the size last reported that hold its payload |
| TxWake.ReportLetsWriterGo | driver.c:1291-1306 | in any state of any run without a fatal error, a report above a sleeping writer's need lets the run go on, reader and writer alone, to where the writer has taken its packets out of that report |
| TxPaths.StepReachesIff | driver.c:881-1126 | in every run a call comes to a point of its code, returns, waits or aborts exactly when the test that leads there says so |
| TxDriver.Driver.DataWriteOp | driver.c:1018-1126 | a data write with its loop, others interleaved at will, is a run of the machine; on success it has taken the packets computed for its payload, and an abort leaves it holding the transmit lock; the books balance |
| TxDriver.Driver.ReserveCredit | driver.c:1027-1098 | the loop is left with the transmit lock and the credit seen, or with the lock given back, or by an abort |
| TxDriver.Driver.DataReadOp | driver.c:881-1013 | so is a data read; on success it has taken its packet and given back its object |
| TxDriver.Driver.CmdOp | driver.c:810-876 | so is a command with its read loop, which always comes back without the locks |
| TxDriver.Driver.MsgReadSpawnCtx | driver.c:1846-1960 | so is the spawn thread's read, abort exit included, after which the credit is what was last reported less what was taken since |
| MsgList.FirstInFirstOut | driver.c:3057-3153 | over every interleaving of insertions with the spawn thread's passes, the events handled and then those stored are exactly those inserted, in order, and the cursor rests on an event only while there is one |
| MsgList.PassEndsEmpty | driver.c:3125-3151 | the step that ends a pass leaves nothing behind: all that was inserted before it, also during the pass, has been handled |
| MsgList.CursorIff | driver.c:3125-3135 | at the start of a pass and behind a handled event the cursor rests on an event if and only if one is stored |
| MsgList.List.Insert | driver.c:3057-3119 | appends the copied event to the linked list; if either allocation fails nothing changes and nothing stays allocated |
| MsgList.List.HandleFirst | driver.c:3129-3153 | unlinks and handles the first event and frees exactly its item and its buffer, each once |
| MsgList.List.Process | driver.c:3121-3153 | a pass alone handles everything stored, in order, and leaves no block allocated |
| MsgList.List.Count | driver.c:3185-3200 | the number of stored events |
| TimeoutMeter.TimeoutParams.IsTimeoutExpired | driver.c:2825-2859 | one poll does to the parameters what the meter's step says |
| TimeoutMeter.DeltaIsMeasured | driver.c:2831-2838 | between samples less than a period apart the measured ticks are the true ones, less one if the counter wrapped |
| TimeoutMeter.ExpiresIff | driver.c:2843-2855 | a poll reports expiry if and only if the measured time has reached the timeout and passed more than a unit since the last commit |
| TimeoutMeter.ExpiresAgainIff | driver.c:2843-2855 | after a poll that reported expiry a later one does so again if and only if what it measures from the last commit, with the remainder, is more than a unit |
| TimeoutMeter.AccountKept | driver.c:2843-2851 | until then measured time at the last commit is the units used up times the unit plus the remainder |
| TimeoutMeter.NeverEarlyNeverLate | driver.c:2817-2859 | over any run of polls expiry is never early in true time, by as many ticks as the counter wrapped, and comes at the first poll past the timeout |
| TimeoutMeter.Sleep | driver.c:2976-2983 | the busy wait ends for every advancing counter polled often enough, not before the time is over and at the first poll past it |
| WifiConn.SlWifiConn.ProcessEvent | slwificonn.c:734-766 | runs the registered handler of the state, with DISABLE known everywhere; state, timer, queues, profile, back-off and notifications change as told event by event and not handler by handler |
| WifiConn.SlWifiConn.ProcessNext | slwificonn.c:1849-1871 | one turn of the event loop; it and the other public operations keep the invariant of every run |
| WifiConn.SlWifiConn.DeferredEventProcess | slwificonn.c:453-483 | every deferred event goes to the event queue in order, and the result says whether there was none |
| WifiConn.SlWifiConn.AsyncEvtTimerHandler | slwificonn.c:1704-1707 | the one-shot timer disarms itself and queues a timeout |
| WifiConn.SlWifiConn.EnableProvisioning | slwificonn.c:2132-2153 | registers the provisioning handlers, sets the mode and tells the machine |
| WifiConn.SlWifiConn.AddProfile | slwificonn.c:2167-2264 | keeps, defers or reports a new profile; one the processor refuses, or that does not fit the memory, changes nothing and sends no event |
| WifiConn.SlWifiConn.ChangeRoleTo | slwificonn.c:2353-2367 | in OFF and EXT_PROVISIONING restarts in another role, and records the station role whatever was asked |
| WifiConn.SlWifiConn.ResetIfOff | slwificonn.c:2379-2392 | restarts in OFF only |
| WifiSafety.StepKeeps | slwificonn.c:734-766 | every operation keeps the invariant of the machine |
| WifiMoves.EventAsTold | slwificonn.c:923-1511 | what one event does to every field, whatever the processor answers: the timer of the state entered, what is kept for later and handed back, when the mode is used up, when the processor restarts and in which role, who is notified of what |
| WifiMoves.EntersIff | slwificonn.c:1111-1511 | a state is entered from another one if and only if the old state, the event, the provisioning mode and method and the profile in use say so |
| WifiMoves.TimeoutsProvision | slwificonn.c:1209-1231 | in every run with provisioning enabled, from IDLE or a wait with nothing queued, PROVISIONING, or EXT_PROVISIONING with the external method, is reached by at most three timeouts alone, whatever the processor answers |
| WifiMoves.ProvisioningRun | slwificonn.c:1223-1226 | such a run from the start |
| WifiWake.AlwaysWakesIff | slwificonn.c:923-933 | with positive 16-bit settings IDLE, WAIT_FOR_CONN, WAIT_FOR_IP, PROVISIONING and EXT_PROVISIONING have the timer armed or a timeout queued in every state of every run, if and only if one of the first 15 doublings of Min in 16 bits is above Max, and one of those of Max is too |
| WifiWake.IntervalsPositiveIff | slwificonn.c:927-931 | no idle interval is ever zero if and only if that holds |
| WifiWake.SleepingRun | slwificonn.c:1159-1167 | if some interval is zero a run of ENABLE and timeouts ends in IDLE with the timer not armed and nothing queued |
| WifiWake.NeverWaitsForever | slwificonn.c:923-1075 | the wake-up property state by state, for all settings that meet the condition |
| WifiWake.PlainSettings | slwificonn.c:927-931 | with Max below 32768 it fails exactly for Min = 32768; with Max 32768 or 65535 always |
| WifiRuns.TimersFit | slwificonn.c:923-1099 | in every run an armed timer shows its state's own timeout, and none is armed in CONNECTED and PROV_STOPPING |
| WifiRuns.ReconnectIff | slwificonn.c:1264-1301 | WAIT_FOR_CONN is entered with the reconnection timeout exactly when a link is given up, and with the connection timeout otherwise |
| WifiRuns.DisableSwitchesOffIff | slwificonn.c:743-756 | DISABLE leads to OFF at once from every state but PROVISIONING, which defers it and stops provisioning |
| WifiRuns.StoppingIsLeft | slwificonn.c:1482-1507 | once PROV_STOPPED has been handled, PROV_STOPPING is left within as many events as are queued |
| WifiRuns.HandlersAreRegistered | slwificonn.c:1223-1226 | in every run the handlers of the provisioning states are registered wherever they or the entry to provisioning could be called |
| WifiRuns.NotificationsBalance | slwificonn.c:748-754 | entries into the connected region less DISCONNECT notifications are 1 inside it and 0 outside, and all but the silent entries had a MAC_CONNECT |
| WifiRuns.SilentIff | slwificonn.c:1171-1178 | an entry is silent exactly for CONNECTED in IDLE and for an address in WAIT_FOR_CONN |
| WifiRuns.SilentRun | slwificonn.c:1209-1211 | a run after which the interface was told of an address and a disconnection and never of a connection |
| WifiRuns.BackoffOverRuns | slwificonn.c:528-533 | in every run the n-th restart since the level was cleared slept 5, 10, 20, then 30 s, 2 s never, and connecting clears the level unless the 8-bit count has come round to zero |
| WifiRuns.IdleEntryArms | slwificonn.c:923-933 | in every run, whatever the settings, an idle entry arms the interval that the number of entries since the last connection or ENABLE gives |
| WifiRuns.IdleSeriesIff | slwificonn.h:181-188 | for 1 <= Min <= Max the k-th entry arms min(Min*2^k, Max) for all k if and only if Max < 32768 |
| WifiWake.IdleNeverWakes | slwificonn.c:927-931 | with Max = 65535 the 17th idle entry arms nothing, for every Min |
| WlanDriver.WlanDev.SmStop | drivers/network/wlan/cc3220sf/cc3220sf.c:1310-1334 | STOP receives up to 11 events while the processor runs and keeps only the installation bit |
| WlanDriver.WlanDev.Tick | drivers/network/wlan/cc3220sf/cc3220sf.c:1864-1941 | one poll: the state's handler runs, the invariant is kept, and the state and the timer afterwards are exactly those told from the state that is entered |
| WlanExec.ExecInv | drivers/network/wlan/cc3220sf/cc3220sf.c:1864-1941 | every poll keeps the invariant on INIT, the next state and the unreachable states |
| WlanMoves.EntersIff | drivers/network/wlan/cc3220sf/cc3220sf.c:1262-1530 | a state is entered from another one exactly when the state, the timer, the event and the status bits say so: an established link is taken down if and only if HANDLE_EVENT receives FW_INSTALL or FATAL_ERROR or the reboot bit is on afterwards, IDLE hands on requests first and then events, and the network starts with provisioning if and only if that is asked for |
| WlanMoves.BitIff | drivers/network/wlan/cc3220sf/cc3220sf.c:314-470 | a poll leaves each status bit on exactly if its event reports it, or it was on and the event does not take it back; a stop leaves nothing but a firmware installation |
| WlanMoves.TimerIff | drivers/network/wlan/cc3220sf/cc3220sf.c:1262-1530 | when the timer starts again |
| WlanMoves.SleepsFor | drivers/network/wlan/cc3220sf/cc3220sf.c:1299-1304 | how long it sleeps after an error and after a processor that does not start, and where it goes on |
| WlanMoves.DownComesToInit | drivers/network/wlan/cc3220sf/cc3220sf.c:1496-1530 | in every run an event that takes the link down is followed by notification, stop and INIT in three polls, whatever the tick |
| WlanMoves.IdleComesToInit | drivers/network/wlan/cc3220sf/cc3220sf.c:1467-1494 | from IDLE with such an event waiting it takes four |
| WlanMoves.InstallsFirmware | drivers/network/wlan/cc3220sf/cc3220sf.c:1262-1334 | a firmware installation asked for on an established link is waited for after six polls, unless another event takes the request back |
| WlanRuns.RunsAreSafe | drivers/network/wlan/cc3220sf/cc3220sf.c:1238-1244 | in every run, whatever arrives, the processor does not run in INIT, so the wait there never spins; every transit state continues with the state meant for it; the invalid state branch is never taken |
| WlanRuns.ComesBackToInit | drivers/network/wlan/cc3220sf/cc3220sf.c:1371-1417 | without an address, a provisioning request or a firmware installation, INIT is reached again within a number of polls computed from the tick |

## Left out

* MsgWrite.MsgWrite: the length computed for descriptors and payloads is a parameter, because the macro that computes it is not part of this model; what is said about the header assumes it is the sum of the aligned lengths.
* RxSafety.NoStrandedMessage: increments of the shared counters are atomic, APIs are allowed, no read fails, no wait times out and no fatal error occurs; the same holds for RxDriver.
* Payload.ReadRecv: the memory from the waiter's buffer pointer on is one array; what else lives behind the buffer is not modelled.
* PoolStop.StopFailsIff: the fatal-error broadcast, which also signals waiters, does not come in between.
* PoolHeap.ListsSurviveIff: releases and requests between the waiters' turns are left out; they walk links that are already broken.
* TxSafety.CallsAreCounted: the counters are unbounded integers and the start, stop and provisioning early return of the global lock, where counting is not balanced, is excluded; so is the spawn context's return with the device closed, which keeps the global lock.
* WlanRuns.ComesBackToInit: the tick is constant over the run, as the poll is registered with one delay.
* RxProtocol, TxFlow and PoolStop interleave atomic actions, and so do the classes RxDriver and TxDriver; what a compiler or processor reorders inside an action is not modelled. A schedule is finite, so a call may be left unfinished when it ends.
* SPI transfers, DMA, the operating system primitives and the network processor: the link is a byte stream, sync objects are binary, and the environment does anything its interface allows.
* Constants and macros of `driver.h`, `protocol.h` and `flowcont.h` are not part of this model: the pool size, socket limit, select id, FLOW_CONT_MIN, sync pattern and largest event payload are parameters with the constraints the code needs; VERIFY_PROTOCOL and the lock macros are taken to return on failure.
* `_SlDrvRxHdrRead` in builds with `slcb_GetTimestamp`, which adds a timeout to the scan.
* Recovery after a fatal error: the restart flag and the broadcast are modelled, the restart is not.
* API calls made from event handlers in the spawn context, and requests with a socket id above SL_MAX_SOCKETS.
* Commands issued while provisioning is in progress (no global lock), multi-select, the control socket branch of the receive path, socket triggers, and the UART, polling and single-threaded builds.
* `_SlDrvFindAndSetActiveObj`: whether an active receive waits for a socket is a parameter of the receive path.
* The static-memory build of the stored events.
* The fan-out tables of library callbacks and user callbacks: identical first-blocker loops.
* In `slwificonn.c`: notifications to the Wi-Fi application (so also the unset return value in EnterPROVISIONING, which only decides one of them), stored profiles, security parameters, the WIFI_STATS build, initialisation, changes of the settings at run time, and the window in which a notification releases the module's lock. Queues are unbounded.
* In `cc3220sf.c`: HTTP requests, OTA, MQTT, statistics registers, logging, and the connection data.
* `netdevice.c`, `network.c`, `wlannet.c`: thin wrappers.
